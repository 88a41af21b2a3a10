/**
 * src/dashboard_sinan_real_data.py, the steps around create_derived_columns:
 * the checks load_sinan_data makes on pre-processed data (essential columns,
 * missing derived columns, the violence test tem_violencia), the age-code
 * list of its fallback path, the sidebar filters that narrow the frame the
 * charts see, and the splitting and counting of the relationship column.
 */
module DashboardFilters {
  import opened Text
  import opened Frames
  import ComprehensiveDicts
  import ComprehensiveDerived
  import DashboardDerived
  import DuckdbProcessor

  // ---------------------------------------------------------------------
  // load_sinan_data: the pre-processed frame

  /** The columns without which pre-processed data is not used. */
  const ESSENTIAL_COLUMNS: seq<string> := ["NU_IDADE_N", "DT_NOTIFIC", "CS_SEXO"]

  /** The derived columns whose absence makes load_sinan_data derive them all. */
  const DERIVED_CHECK: seq<string> := ["ANO_NOTIFIC", "TIPO_VIOLENCIA", "SEXO", "UF_NOTIFIC", "FAIXA_ETARIA"]

  const VIOLENCE_COLUMNS: seq<string> := ["VIOL_SEXU", "VIOL_FISIC", "VIOL_PSICO", "VIOL_INFAN"]

  /** The texts tem_violencia reads as a marked violence. */
  const VIOLENCE_TEXTS: seq<string> := ["1", "SIM", "S", "1.0"]

  /** A list comprehension keeping the names a frame lacks, in their order. */
  function Missing(names: seq<string>, cols: seq<string>): (r: seq<string>)
    ensures |r| <= |names|
    ensures forall x :: x in r <==> x in names && x !in cols
  {
    if names == [] then []
    else (if names[0] in cols then [] else [names[0]]) + Missing(names[1..], cols)
  }

  /** str(row.get(col, '')): an absent column reads as the empty text. */
  function TextOr(r: Row, c: string): string {
    if c in r then CellText(r[c]) else ""
  }

  /** The membership test of tem_violencia on the upper-cased, stripped text. */
  predicate IsMarkingText(val: string) {
    val == "1" || val == "SIM" || val == "S" || val == "1.0"
  }

  /** str(row.get(col, '')).upper().strip(). */
  function MarkText(r: Row, c: string): string {
    Strip(Upper(TextOr(r, c)))
  }

  /** One column of tem_violencia: a marking text, or a value equal to 1. */
  predicate IsMarked(r: Row, c: string) {
    IsMarkingText(MarkText(r, c)) || (c in r && r[c] == Num(1))
  }

  /** tem_violencia as a statement: the first available column is marked, or one of the others is. */
  predicate HasViolence(r: Row, available: seq<string>)
    decreases |available|
  {
    available != [] && (IsMarked(r, available[0]) || HasViolence(r, available[1..]))
  }

  /** A row has violence exactly when some available violence column of it is marked. */
  lemma {:induction false} HasViolenceSome(r: Row, available: seq<string>)
    ensures HasViolence(r, available) <==> exists c :: c in available && IsMarked(r, c)
    decreases |available|
  {
    if available != [] {
      HasViolenceSome(r, available[1..]);
      forall c | c in available
        ensures c == available[0] || c in available[1..]
      {
      }
    }
  }

  /** tem_violencia as the test a row filter applies. */
  function MarkedIn(available: seq<string>): (p: Row -> bool)
    ensures forall r :: p(r) == HasViolence(r, available)
  {
    r => HasViolence(r, available)
  }

  /** tem_violencia: the loop over the available columns, returning at the first marked one. */
  method TemViolencia(row: Row, available: seq<string>) returns (marked: bool)
    ensures marked == HasViolence(row, available)
  {
    for k := 0 to |available|
      invariant HasViolence(row, available) == HasViolence(row, available[k..])
    {
      var col := available[k];
      assert available[k..][1..] == available[k + 1..];
      var val := Strip(Upper(TextOr(row, col)));
      if IsMarkingText(val) {
        return true;
      }
      if col in row && row[col] == Num(1) {
        return true;
      }
    }
    return false;
  }

  /**
   * The violence step of the pre-processed path: with a violence column
   * present, the rows tem_violencia accepts replace the frame, but only when
   * some row was rejected.
   */
  function ViolenceStep(f: Frame): Frame {
    var available := Present(VIOLENCE_COLUMNS, f.columns);
    if available == [] then f
    else
      var kept := Filter(f, MarkedIn(available));
      if |f.rows| - |kept.rows| > 0 then kept else f
  }

  /** When no row is dropped, keeping the rows gives back all of them. */
  lemma {:induction false} KeepWhereFull(rows: seq<Row>, p: Row -> bool)
    requires |KeepWhere(rows, p)| == |rows|
    ensures KeepWhere(rows, p) == rows
  {
    if rows != [] {
      assert KeepWhere(rows, p) == (if p(rows[0]) then [rows[0]] else []) + KeepWhere(rows[1..], p);
      if p(rows[0]) {
        KeepWhereFull(rows[1..], p);
      }
    }
  }

  /**
   * The guard on the count of rejected rows changes nothing: the step is the
   * violence filter itself whenever a violence column is present.
   */
  lemma ViolenceStepIsFilter(f: Frame)
    requires Present(VIOLENCE_COLUMNS, f.columns) != []
    ensures ViolenceStep(f) == Filter(f, MarkedIn(Present(VIOLENCE_COLUMNS, f.columns)))
  {
    var p := MarkedIn(Present(VIOLENCE_COLUMNS, f.columns));
    if |f.rows| - |KeepWhere(f.rows, p)| <= 0 {
      KeepWhereFull(f.rows, p);
    }
  }

  /**
   * The violence step keeps the columns and the order of the rows, keeps
   * exactly the rows with a marked violence column when one is present, and
   * keeps every row otherwise.
   */
  lemma ViolenceStepKeeps(f: Frame)
    ensures ViolenceStep(f).columns == f.columns
    ensures IsSubsequence(ViolenceStep(f).rows, f.rows)
    ensures Present(VIOLENCE_COLUMNS, f.columns) == [] ==> ViolenceStep(f) == f
    ensures forall r :: r in ViolenceStep(f).rows <==>
              r in f.rows && (Present(VIOLENCE_COLUMNS, f.columns) != [] ==> HasViolence(r, Present(VIOLENCE_COLUMNS, f.columns)))
  {
    if Present(VIOLENCE_COLUMNS, f.columns) != [] {
      ViolenceStepIsFilter(f);
    } else {
      IsSubsequenceRefl(f.rows);
    }
  }

  /**
   * The pre-processed branch of load_sinan_data: None when an essential
   * column is missing (the raised error sends the caller to the normal
   * path); otherwise the frame, derived again when a derived column is
   * missing, after the violence step.
   */
  function LoadPreprocessed(parse: string -> Option<Stamp>, names: map<string, string>, f: Frame): Option<Frame> {
    if Missing(ESSENTIAL_COLUMNS, f.columns) != [] then None
    else
      var df := if Missing(DERIVED_CHECK, f.columns) != [] then DashboardDerived.DerivedColumns(parse, names, f) else f;
      Some(ViolenceStep(df))
  }

  /** A frame lacks none of the names it has. */
  lemma {:induction false} MissingNone(names: seq<string>, cols: seq<string>)
    requires forall x :: x in names ==> x in cols
    ensures Missing(names, cols) == []
  {
    if names != [] {
      MissingNone(names[1..], cols);
    }
  }

  /** Every derived column the check names is one create_derived_columns always leaves. */
  lemma DerivedCheckAlwaysDerived(cols: seq<string>)
    requires forall c :: c in DashboardDerived.ALWAYS_DERIVED ==> c in cols
    ensures Missing(DERIVED_CHECK, cols) == []
  {
    var w := DashboardDerived.ALWAYS_DERIVED;
    assert "ANO_NOTIFIC" in w && "TIPO_VIOLENCIA" in w && "SEXO" in w && "UF_NOTIFIC" in w && "FAIXA_ETARIA" in w;
    MissingNone(DERIVED_CHECK, cols);
  }

  /** The derivation leaves every column the derived check looks for. */
  lemma DerivedCheckPresent(parse: string -> Option<Stamp>, names: map<string, string>, f: Frame)
    ensures Missing(DERIVED_CHECK, DashboardDerived.DerivedColumns(parse, names, f).columns) == []
  {
    DashboardDerived.DerivedColumnsPresent(parse, names, f);
    DerivedCheckAlwaysDerived(DashboardDerived.DerivedColumns(parse, names, f).columns);
  }

  /**
   * The pre-processed frame is used exactly when it has the essential
   * columns; the frame handed on then has every derived column the check
   * names, and holds only violent rows when a violence column is present.
   */
  lemma LoadPreprocessedShape(parse: string -> Option<Stamp>, names: map<string, string>, f: Frame)
    ensures LoadPreprocessed(parse, names, f).Some? <==> forall c :: c in ESSENTIAL_COLUMNS ==> c in f.columns
    ensures LoadPreprocessed(parse, names, f).Some? ==>
              var g := LoadPreprocessed(parse, names, f).value;
              && (forall c :: c in DERIVED_CHECK ==> c in g.columns)
              && (Present(VIOLENCE_COLUMNS, g.columns) != [] ==>
                    forall r :: r in g.rows ==> HasViolence(r, Present(VIOLENCE_COLUMNS, g.columns)))
    ensures Missing(ESSENTIAL_COLUMNS, f.columns) == [] && Missing(DERIVED_CHECK, f.columns) == [] ==>
              LoadPreprocessed(parse, names, f) == Some(ViolenceStep(f))
  {
    if Missing(ESSENTIAL_COLUMNS, f.columns) == [] {
      var df := if Missing(DERIVED_CHECK, f.columns) != [] then DashboardDerived.DerivedColumns(parse, names, f) else f;
      if Missing(DERIVED_CHECK, f.columns) != [] {
        DerivedCheckPresent(parse, names, f);
      }
      assert Missing(DERIVED_CHECK, df.columns) == [];
      ViolenceStepKeeps(df);
    } else {
      var m := Missing(ESSENTIAL_COLUMNS, f.columns);
      assert m[0] in ESSENTIAL_COLUMNS && m[0] !in f.columns;
    }
  }

  /** The checks of the pre-processed branch, with the lists built as list comprehensions. */
  method LoadPreprocessedData(parse: string -> Option<Stamp>, names: map<string, string>, data: Frame)
    returns (loaded: Option<Frame>)
    ensures loaded == LoadPreprocessed(parse, names, data)
  {
    var colunasFaltando := Missing(ESSENTIAL_COLUMNS, data.columns);
    if colunasFaltando != [] {
      return None;
    }
    var df := data;
    var derivadasFaltando := Missing(DERIVED_CHECK, df.columns);
    if derivadasFaltando != [] {
      df := DashboardDerived.CreateDerivedColumns(parse, names, df);
    }
    df := ViolenceStep(df);
    return Some(df);
  }

  // ---------------------------------------------------------------------
  // load_sinan_data: the age codes of the fallback path

  /** f'400{i}' if i < 10 else f'40{i}' for i in range(0, 18). */
  function FallbackAgeCodes(): (codes: seq<string>)
    ensures |codes| == 18
  {
    seq(18, i requires 0 <= i < 18 => if i < 10 then "400" + NatToDecimal(i) else "40" + NatToDecimal(i))
  }

  /** Below one hundred, the two-digit padding is the leading zero the list writes by hand. */
  lemma PadTwoCases(i: nat)
    requires i < 100
    ensures i < 10 ==> ZeroPad(i, 2) == "0" + NatToDecimal(i)
    ensures i >= 10 ==> ZeroPad(i, 2) == NatToDecimal(i)
  {
    if i >= 10 {
      assert NatToDecimal(i) == NatToDecimal(i / 10) + [DigitChar(i % 10)];
    } else {
      assert NatToDecimal(i) == [DigitChar(i)];
      assert seq(1, _ => '0') == "0";
    }
  }

  /** Each hand-written code is the dictionary's code of that many years. */
  lemma FallbackAgeCodeAt(i: nat)
    requires i < 18
    ensures FallbackAgeCodes()[i] == ComprehensiveDicts.AgeCode(i)
  {
    PadTwoCases(i);
    if i < 10 {
      assert "400" + NatToDecimal(i) == "40" + ("0" + NatToDecimal(i));
    }
  }

  /**
   * The hand-written list is the list the DuckDB processor builds from the
   * dictionary codes, so it holds exactly the codes of zero to seventeen
   * years the age dictionary decodes.
   */
  lemma FallbackAgeCodesAreDictionaryCodes()
    ensures FallbackAgeCodes() == DuckdbProcessor.AgeCodeList()
    ensures forall k :: k in FallbackAgeCodes() <==> k in ComprehensiveDicts.AgeDictionary()
  {
    forall i | 0 <= i < 18
      ensures FallbackAgeCodes()[i] == DuckdbProcessor.AgeCodeList()[i]
    {
      FallbackAgeCodeAt(i);
    }
    DuckdbProcessor.AgeCodeListMatchesDictionary();
  }

  /** violence_data['NU_IDADE_N'].astype(str).isin(age_codes), when the column is present. */
  function FallbackAgeFilter(f: Frame): Frame {
    if "NU_IDADE_N" in f.columns then Filter(f, r => CellText(Get(r, "NU_IDADE_N")) in FallbackAgeCodes())
    else f
  }

  /** A row passes the fallback age filter exactly when its age code is one of zero to seventeen years. */
  lemma FallbackAgeFilterKeeps(f: Frame, r: Row)
    requires "NU_IDADE_N" in f.columns
    ensures r in FallbackAgeFilter(f).rows <==>
              r in f.rows && exists i :: 0 <= i < 18 && CellText(Get(r, "NU_IDADE_N")) == ComprehensiveDicts.AgeCode(i)
  {
    var t := CellText(Get(r, "NU_IDADE_N"));
    if t in FallbackAgeCodes() {
      var i :| 0 <= i < 18 && FallbackAgeCodes()[i] == t;
      FallbackAgeCodeAt(i);
    }
    if exists i :: 0 <= i < 18 && t == ComprehensiveDicts.AgeCode(i) {
      var i :| 0 <= i < 18 && t == ComprehensiveDicts.AgeCode(i);
      FallbackAgeCodeAt(i);
    }
  }

  // ---------------------------------------------------------------------
  // The sidebar filters

  /** The choices the sidebar widgets hand to the filters. */
  datatype Selection = Selection(anoMin: int, anoMax: int, uf: string, municipio: string, tipo: string)

  /** The sentinel every select box offers first. */
  const ALL: string := "Todos"

  /** The comparisons with the slider bounds: a missing year fails both. */
  predicate YearWithin(r: Row, lo: int, hi: int) {
    var y := Get(r, "ANO_NOTIFIC");
    y.Num? && lo <= y.n && y.n <= hi
  }

  /** A municipality the select box would offer: present, and neither 'nan' nor 'N/A'. */
  predicate IsMunicipioOption(v: Cell) {
    !v.Null? && CellText(v) != "nan" && CellText(v) != "N/A"
  }

  /** The year filter, applied when the year column is present. */
  function YearFilter(f: Frame, lo: int, hi: int): Frame {
    if "ANO_NOTIFIC" in f.columns then Filter(f, r => YearWithin(r, lo, hi)) else f
  }

  /** The state filter, applied when a state is chosen. */
  function UfFilter(f: Frame, uf: string): Frame {
    if uf != ALL then Filter(f, r => Get(r, "UF_NOTIFIC") == Str(uf)) else f
  }

  /** Whether the municipality select box is shown: a state is chosen and some municipality remains to offer. */
  predicate MunicipioOffered(f: Frame, uf: string) {
    uf != ALL && "MUNICIPIO_NOTIFIC" in f.columns &&
    exists i :: 0 <= i < |f.rows| && IsMunicipioOption(Get(f.rows[i], "MUNICIPIO_NOTIFIC"))
  }

  /** The municipality filter, applied to the state-filtered frame when the box is shown and a municipality chosen. */
  function MunicipioFilter(f: Frame, uf: string, municipio: string): Frame {
    if MunicipioOffered(f, uf) && municipio != ALL then Filter(f, r => Get(r, "MUNICIPIO_NOTIFIC") == Str(municipio))
    else f
  }

  /** Whether the violence-type select box is shown: the column has some present value. */
  predicate TipoOffered(f: Frame) {
    "TIPO_VIOLENCIA" in f.columns && exists i :: 0 <= i < |f.rows| && !Get(f.rows[i], "TIPO_VIOLENCIA").Null?
  }

  /** str.contains(tipo, na=False): text values holding the chosen type. */
  predicate TipoMatches(r: Row, tipo: string) {
    var v := Get(r, "TIPO_VIOLENCIA");
    v.Str? && Contains(v.s, tipo)
  }

  /** The violence-type filter, applied when the box is shown and a type chosen. */
  function TipoFilter(f: Frame, tipo: string): Frame {
    if TipoOffered(f) && tipo != ALL then Filter(f, r => TipoMatches(r, tipo)) else f
  }

  /** df_filtrado after the four filters, each on the frame the previous left. */
  function SidebarFilters(f: Frame, sel: Selection): Frame {
    var byYear := YearFilter(f, sel.anoMin, sel.anoMax);
    var byUf := UfFilter(byYear, sel.uf);
    var byMunicipio := MunicipioFilter(byUf, sel.uf, sel.municipio);
    TipoFilter(byMunicipio, sel.tipo)
  }

  /** The filter block of the page: df_filtrado reassigned by each filter in turn. */
  method ApplySidebarFilters(df: Frame, sel: Selection) returns (dfFiltrado: Frame)
    ensures dfFiltrado == SidebarFilters(df, sel)
  {
    dfFiltrado := df;
    if "ANO_NOTIFIC" in dfFiltrado.columns {
      dfFiltrado := Filter(dfFiltrado, r => YearWithin(r, sel.anoMin, sel.anoMax));
    }
    ghost var byYear := dfFiltrado;
    assert byYear == YearFilter(df, sel.anoMin, sel.anoMax);
    if sel.uf != ALL {
      dfFiltrado := Filter(dfFiltrado, r => Get(r, "UF_NOTIFIC") == Str(sel.uf));
      assert dfFiltrado == UfFilter(byYear, sel.uf);
      if "MUNICIPIO_NOTIFIC" in dfFiltrado.columns {
        var offered := exists i :: 0 <= i < |dfFiltrado.rows| && IsMunicipioOption(Get(dfFiltrado.rows[i], "MUNICIPIO_NOTIFIC"));
        if offered && sel.municipio != ALL {
          dfFiltrado := Filter(dfFiltrado, r => Get(r, "MUNICIPIO_NOTIFIC") == Str(sel.municipio));
        }
      }
    }
    ghost var byMunicipio := dfFiltrado;
    assert byMunicipio == MunicipioFilter(UfFilter(byYear, sel.uf), sel.uf, sel.municipio);
    if "TIPO_VIOLENCIA" in dfFiltrado.columns {
      var offered := exists i :: 0 <= i < |dfFiltrado.rows| && !Get(dfFiltrado.rows[i], "TIPO_VIOLENCIA").Null?;
      if offered && sel.tipo != ALL {
        dfFiltrado := Filter(dfFiltrado, r => TipoMatches(r, sel.tipo));
      }
    }
    assert dfFiltrado == TipoFilter(byMunicipio, sel.tipo);
  }

  /** One filter step keeps the columns and removes rows only. */
  predicate Narrows(f: Frame, g: Frame) {
    g.columns == f.columns && IsSubsequence(g.rows, f.rows)
  }

  lemma {:induction false} NarrowsTrans(f: Frame, g: Frame, h: Frame)
    requires Narrows(f, g) && Narrows(g, h)
    ensures Narrows(f, h)
  {
    IsSubsequenceTrans(h.rows, g.rows, f.rows);
  }

  /** The filters keep the columns and take a subsequence of the rows, in their order. */
  lemma SidebarFiltersNarrow(f: Frame, sel: Selection)
    ensures SidebarFilters(f, sel).columns == f.columns
    ensures IsSubsequence(SidebarFilters(f, sel).rows, f.rows)
    ensures |SidebarFilters(f, sel).rows| <= |f.rows|
  {
    var byYear := YearFilter(f, sel.anoMin, sel.anoMax);
    var byUf := UfFilter(byYear, sel.uf);
    var byMunicipio := MunicipioFilter(byUf, sel.uf, sel.municipio);
    var byTipo := TipoFilter(byMunicipio, sel.tipo);
    IsSubsequenceRefl(f.rows);
    IsSubsequenceRefl(byYear.rows);
    IsSubsequenceRefl(byUf.rows);
    IsSubsequenceRefl(byMunicipio.rows);
    assert Narrows(f, byYear) && Narrows(byYear, byUf);
    assert Narrows(byUf, byMunicipio) && Narrows(byMunicipio, byTipo);
    NarrowsTrans(f, byYear, byUf);
    NarrowsTrans(f, byUf, byMunicipio);
    NarrowsTrans(f, byMunicipio, byTipo);
    assert |byYear.rows| <= |f.rows| && |byUf.rows| <= |byYear.rows|;
    assert |byMunicipio.rows| <= |byUf.rows| && |byTipo.rows| <= |byMunicipio.rows|;
  }

  /**
   * A row that survives the filters was in the frame, lies in the chosen
   * years when the year column is present and is of the chosen state; with a
   * municipality or a type chosen, a row whose value the box could offer
   * holds the chosen one.
   */
  lemma SidebarFiltersSound(f: Frame, sel: Selection, r: Row)
    requires r in SidebarFilters(f, sel).rows
    ensures r in f.rows
    ensures "ANO_NOTIFIC" in f.columns ==> YearWithin(r, sel.anoMin, sel.anoMax)
    ensures sel.uf != ALL ==> Get(r, "UF_NOTIFIC") == Str(sel.uf)
    ensures (sel.uf != ALL && "MUNICIPIO_NOTIFIC" in f.columns && sel.municipio != ALL &&
             IsMunicipioOption(Get(r, "MUNICIPIO_NOTIFIC"))) ==> Get(r, "MUNICIPIO_NOTIFIC") == Str(sel.municipio)
    ensures "TIPO_VIOLENCIA" in f.columns && sel.tipo != ALL && !Get(r, "TIPO_VIOLENCIA").Null? ==>
              TipoMatches(r, sel.tipo)
  {
    var byYear := YearFilter(f, sel.anoMin, sel.anoMax);
    var byUf := UfFilter(byYear, sel.uf);
    var byMunicipio := MunicipioFilter(byUf, sel.uf, sel.municipio);
    assert r in byMunicipio.rows;
    assert r in byUf.rows;
    assert r in byYear.rows;
    if sel.uf != ALL && "MUNICIPIO_NOTIFIC" in f.columns && IsMunicipioOption(Get(r, "MUNICIPIO_NOTIFIC")) {
      var i :| 0 <= i < |byUf.rows| && byUf.rows[i] == r;
      assert MunicipioOffered(byUf, sel.uf);
    }
    if "TIPO_VIOLENCIA" in f.columns && !Get(r, "TIPO_VIOLENCIA").Null? {
      var i :| 0 <= i < |byMunicipio.rows| && byMunicipio.rows[i] == r;
      assert TipoOffered(byMunicipio);
    }
  }

  /** A row of the frame that meets every chosen criterion survives the filters. */
  lemma SidebarFiltersComplete(f: Frame, sel: Selection, r: Row)
    requires r in f.rows
    requires "ANO_NOTIFIC" in f.columns ==> YearWithin(r, sel.anoMin, sel.anoMax)
    requires sel.uf != ALL ==> Get(r, "UF_NOTIFIC") == Str(sel.uf)
    requires sel.municipio != ALL ==> Get(r, "MUNICIPIO_NOTIFIC") == Str(sel.municipio)
    requires sel.tipo != ALL ==> TipoMatches(r, sel.tipo)
    ensures r in SidebarFilters(f, sel).rows
  {
    var byYear := YearFilter(f, sel.anoMin, sel.anoMax);
    var byUf := UfFilter(byYear, sel.uf);
    var byMunicipio := MunicipioFilter(byUf, sel.uf, sel.municipio);
    assert r in byYear.rows;
    assert r in byUf.rows;
    assert r in byMunicipio.rows;
  }

  /** With every box left at its first option, the filters keep exactly the rows of the chosen years. */
  lemma SidebarFiltersAllOptions(f: Frame, lo: int, hi: int)
    ensures SidebarFilters(f, Selection(lo, hi, ALL, ALL, ALL)) == YearFilter(f, lo, hi)
  {
  }

  // ---------------------------------------------------------------------
  // Chart 7: splitting and counting the relationships

  /** The relationships one row of df_parentesco contributes: none when missing, else its comma-separated parts, stripped. */
  function RowParts(r: Row): seq<string> {
    var v := Get(r, "GRAU_PARENTESCO");
    if v.Null? then [] else StripAll(SplitOn(CellText(v), ','))
  }

  /** df_filtrado['GRAU_PARENTESCO'] != 'Não informado': a missing value passes the comparison. */
  predicate IsInformed(r: Row) {
    Get(r, "GRAU_PARENTESCO") != Str(DashboardDerived.NOT_INFORMED)
  }

  /** parentescos_list for the rows of df_filtrado: the parts of the informed rows, in row order. */
  function Parentescos(rows: seq<Row>): seq<string> {
    if rows == [] then []
    else (if IsInformed(rows[0]) then RowParts(rows[0]) else []) + Parentescos(rows[1..])
  }

  /** The parts of every row, in row order. */
  function AllParts(parts: Row -> seq<string>, rows: seq<Row>): seq<string> {
    if rows == [] then [] else parts(rows[0]) + AllParts(parts, rows[1..])
  }

  /** Taking the parts of the rows df_parentesco keeps is collecting the informed rows' parts. */
  lemma {:induction false} ParentescosOfKept(rows: seq<Row>)
    ensures AllParts(RowParts, KeepWhere(rows, IsInformed)) == Parentescos(rows)
  {
    if rows != [] {
      ParentescosOfKept(rows[1..]);
    }
  }

  lemma {:induction false} AllPartsSnoc(parts: Row -> seq<string>, rows: seq<Row>, r: Row)
    ensures AllParts(parts, rows + [r]) == AllParts(parts, rows) + parts(r)
  {
    if rows == [] {
      assert [r][1..] == [];
    } else {
      assert (rows + [r])[0] == rows[0];
      assert (rows + [r])[1..] == rows[1..] + [r];
      AllPartsSnoc(parts, rows[1..], r);
      assert AllParts(parts, rows + [r]) == parts(rows[0]) + (AllParts(parts, rows[1..]) + parts(r));
    }
  }

  /** The loop over df_parentesco extending parentescos_list. */
  method CollectParentescos(dfFiltrado: Frame) returns (parentescosList: seq<string>)
    ensures parentescosList == Parentescos(dfFiltrado.rows)
  {
    var dfParentesco := Filter(dfFiltrado, IsInformed);
    parentescosList := [];
    for i := 0 to |dfParentesco.rows|
      invariant parentescosList == AllParts(RowParts, dfParentesco.rows[..i])
    {
      var row := dfParentesco.rows[i];
      AllPartsSnoc(RowParts, dfParentesco.rows[..i], row);
      assert dfParentesco.rows[..i + 1] == dfParentesco.rows[..i] + [row];
      var parentesco := Get(row, "GRAU_PARENTESCO");
      if !parentesco.Null? {
        parentescosList := parentescosList + StripAll(SplitOn(CellText(parentesco), ','));
      }
    }
    assert dfParentesco.rows[..|dfParentesco.rows|] == dfParentesco.rows;
    ParentescosOfKept(dfFiltrado.rows);
  }

  /** Counter(parentescos_list): each relationship with the number of times it occurs. */
  method CountParentescos(parentescosList: seq<string>) returns (counts: map<string, nat>)
    ensures forall p :: p in counts <==> p in parentescosList
    ensures forall p :: p in counts ==> counts[p] == multiset(parentescosList)[p]
  {
    counts := map[];
    for i := 0 to |parentescosList|
      invariant forall p :: p in counts <==> p in parentescosList[..i]
      invariant forall p :: p in counts ==> counts[p] == multiset(parentescosList[..i])[p]
    {
      var p := parentescosList[i];
      assert parentescosList[..i + 1] == parentescosList[..i] + [p];
      var before := if p in counts then counts[p] else 0;
      counts := counts[p := before + 1];
    }
    assert parentescosList[..|parentescosList|] == parentescosList;
  }

  /**
   * A relationship text built by create_derived_columns from dictionary
   * columns splits back into the names of its marked columns: a row without
   * any contributes nothing to the count, any other exactly those names.
   */
  lemma RelTextParts(r: Row, cols: seq<string>, g: Row)
    requires forall c :: c in cols ==> c in DashboardDerived.REL_DICT
    requires Get(g, "GRAU_PARENTESCO") == Str(DashboardDerived.RelText(r, cols))
    ensures !IsInformed(g) <==> forall c :: c in cols ==> !ComprehensiveDerived.IsRelSet(r, c)
    ensures IsInformed(g) ==> RowParts(g) == DashboardDerived.RelLabels(ComprehensiveDerived.RelSetIn(r), cols)
  {
    DashboardDerived.RelTextCases(r, cols);
  }

  /** The list is the concatenation of the rows' parts, so a row's parts are all counted. */
  lemma ParentescosHoldRowParts(rows: seq<Row>, i: nat)
    requires i < |rows| && IsInformed(rows[i])
    ensures multiset(RowParts(rows[i])) <= multiset(Parentescos(rows))
  {
    ParentescosOfKept(rows);
    AllPartsHold(RowParts, KeepWhere(rows, IsInformed), rows[i]);
  }

  /** The parts of any one row are among the parts of all rows. */
  lemma {:induction false} AllPartsHold(parts: Row -> seq<string>, rows: seq<Row>, r: Row)
    requires r in rows
    ensures multiset(parts(r)) <= multiset(AllParts(parts, rows))
  {
    var rest := AllParts(parts, rows[1..]);
    assert multiset(parts(rows[0]) + rest) == multiset(parts(rows[0])) + multiset(rest);
    if r != rows[0] {
      AllPartsHold(parts, rows[1..], r);
    }
  }
}
