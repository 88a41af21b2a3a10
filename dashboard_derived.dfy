/**
 * create_derived_columns of the dashboard: its own copy of the derivation
 * rules, run on preprocessed data that lacks a derived column and on data
 * processed at load time. Dates, year, report delay, justice referrals,
 * state and municipality names, violence type, age group, victim and
 * aggressor sex and relationship to the aggressor, in that order.
 */
module DashboardDerived {
  import opened Text
  import opened Frames
  import ComprehensiveDicts
  import ComprehensiveFilter
  import ComprehensiveDerived

  const NOT_INFORMED: string := "Não informado"

  // ---------------------------------------------------------------------
  // Dates

  const DATE_COLUMNS: seq<string> := ["DT_NOTIFIC", "DT_OCOR", "DT_ENCERRA", "DT_DIGITA", "DT_INVEST"]

  /** The blank texts the first replace turns into missing values. */
  const BLANK_TEXTS: seq<string> := ["", "        ", " "]

  /** What astype(str) writes for a missing value, turned into missing by the second replace. */
  const MISSING_TEXTS: seq<string> := ["nan", "None", "NaT"]

  /**
   * process_date_column on one value as written: blanks and missing markers
   * become missing, and every other value, a timestamp included, is parsed
   * from its text by the YYYYMMDD parser.
   */
  function CleanDateAsWritten(parse: string -> Option<Stamp>, v: Cell): (r: Cell)
    ensures r.Null? || r.Date?
    ensures v.Null? ==> r.Null?
  {
    if v.Null? || (v.Str? && v.s in BLANK_TEXTS) then Null
    else if CellText(v) in MISSING_TEXTS then Null
    else if parse(CellText(v)).Some? then Date(parse(CellText(v)).value)
    else Null
  }

  /**
   * A timestamp written as 'YYYY-MM-DD' does not match the YYYYMMDD format,
   * so a column that is already of datetime type comes out all missing.
   */
  lemma CleanDateAsWrittenDropsTimestamps(parse: string -> Option<Stamp>, t: Stamp, k: nat)
    requires forall s :: parse(s).Some? ==> IsDigits(s)
    requires k < |t.text| && t.text[k] == '-'
    ensures CleanDateAsWritten(parse, Date(t)) == Null
  {
    assert !IsDigit(t.text[k]);
  }

  /** process_date_column as intended: a timestamp is kept, everything else as written. */
  function CleanDate(parse: string -> Option<Stamp>, v: Cell): (r: Cell)
    ensures r.Null? || r.Date?
    ensures v.Date? ==> r == v
    ensures v.Null? ==> r.Null?
  {
    if v.Date? then v else CleanDateAsWritten(parse, v)
  }

  /** Cleaning a cleaned column changes nothing, so running the date step twice is harmless. */
  lemma CleanDateIdempotent(parse: string -> Option<Stamp>, v: Cell)
    ensures CleanDate(parse, CleanDate(parse, v)) == CleanDate(parse, v)
  {
  }

  /** The same text is parsed the same way by both versions. */
  lemma CleanDateOnText(parse: string -> Option<Stamp>, s: string)
    ensures CleanDate(parse, Str(s)) == CleanDateAsWritten(parse, Str(s))
    ensures s in BLANK_TEXTS || s in MISSING_TEXTS ==> CleanDate(parse, Str(s)).Null?
    ensures s !in BLANK_TEXTS && s !in MISSING_TEXTS && parse(s).Some? ==>
              CleanDate(parse, Str(s)) == Date(parse(s).value)
  {
  }

  /** process_date_column on one column, when it exists, as written. */
  function CleanColumn(parse: string -> Option<Stamp>, f: Frame, c: string): Frame {
    if c in f.columns then MapColumn(f, c, r => CleanDateAsWritten(parse, Get(r, c))) else f
  }

  /**
   * The date step as written drops a timestamp that is already in the
   * column, whenever its text holds a '-' the YYYYMMDD parser rejects.
   */
  lemma CleanColumnDropsTimestamp(parse: string -> Option<Stamp>, f: Frame, c: string, i: nat, t: Stamp, k: nat)
    requires forall s :: parse(s).Some? ==> IsDigits(s)
    requires c in f.columns && i < |f.rows| && Get(f.rows[i], c) == Date(t)
    requires k < |t.text| && t.text[k] == '-'
    ensures |CleanColumn(parse, f, c).rows| == |f.rows|
    ensures Get(CleanColumn(parse, f, c).rows[i], c) == Null
  {
    CleanDateAsWrittenDropsTimestamps(parse, t, k);
  }

  /** The date columns among cols cleaned, in their order. */
  function CleanColumns(parse: string -> Option<Stamp>, f: Frame, cols: seq<string>): Frame {
    if cols == [] then f
    else CleanColumn(parse, CleanColumns(parse, f, cols[..|cols| - 1]), cols[|cols| - 1])
  }

  function DatesStage(parse: string -> Option<Stamp>, f: Frame): Frame {
    CleanColumns(parse, f, DATE_COLUMNS)
  }

  /** The loop over the five date columns. */
  method ProcessDates(parse: string -> Option<Stamp>, data: Frame) returns (df: Frame)
    ensures df == DatesStage(parse, data)
  {
    df := data;
    for k := 0 to |DATE_COLUMNS|
      invariant df == CleanColumns(parse, data, DATE_COLUMNS[..k])
    {
      var col := DATE_COLUMNS[k];
      assert DATE_COLUMNS[..k + 1][..k] == DATE_COLUMNS[..k];
      if col in df.columns {
        df := ApplyRows(df, col, r => CleanDateAsWritten(parse, Get(r, col)));
      }
    }
    assert DATE_COLUMNS[..|DATE_COLUMNS|] == DATE_COLUMNS;
  }

  /**
   * Cleaning keeps the columns and the rows, leaves a converted column with
   * timestamps and missing values only, and touches no other column.
   */
  lemma {:induction false} CleanColumnsCells(parse: string -> Option<Stamp>, f: Frame, cols: seq<string>)
    ensures CleanColumns(parse, f, cols).columns == f.columns
    ensures |CleanColumns(parse, f, cols).rows| == |f.rows|
    ensures forall i, c :: 0 <= i < |f.rows| && c in cols && c in f.columns ==>
              var v := Get(CleanColumns(parse, f, cols).rows[i], c); v.Null? || v.Date?
    ensures forall i, c :: 0 <= i < |f.rows| && c !in cols ==>
              Get(CleanColumns(parse, f, cols).rows[i], c) == Get(f.rows[i], c)
  {
    if cols != [] {
      var init := cols[..|cols| - 1];
      var last := cols[|cols| - 1];
      CleanColumnsCells(parse, f, init);
      var g := CleanColumns(parse, f, init);
      assert forall c :: c in cols <==> c in init || c == last;
      if last in g.columns {
        assert AddName(g.columns, last) == g.columns;
      }
    }
  }

  // ---------------------------------------------------------------------
  // Year

  /** ANO_NOTIFIC: the year of DT_NOTIFIC, else NU_ANO as a number, else missing. */
  function YearStage(f: Frame): Frame {
    if "DT_NOTIFIC" in f.columns then
      MapColumn(f, "ANO_NOTIFIC", r => ComprehensiveDerived.YearOf(Get(r, "DT_NOTIFIC")))
    else if "NU_ANO" in f.columns then
      MapColumn(f, "ANO_NOTIFIC", r => ComprehensiveDerived.ToNumeric(Get(r, "NU_ANO")))
    else FillColumn(f, "ANO_NOTIFIC", Null)
  }

  /** Every year is a number or missing, and a notification date gives its own year. */
  lemma YearStageCells(f: Frame, i: nat)
    requires i < |f.rows|
    ensures "ANO_NOTIFIC" in YearStage(f).columns
    ensures var y := Get(YearStage(f).rows[i], "ANO_NOTIFIC"); y.Null? || y.Num?
    ensures "DT_NOTIFIC" in f.columns && Get(f.rows[i], "DT_NOTIFIC").Date? ==>
              Get(YearStage(f).rows[i], "ANO_NOTIFIC") == Num(Get(f.rows[i], "DT_NOTIFIC").t.year)
  {
  }

  // ---------------------------------------------------------------------
  // Report delay

  const DELAY_COLUMN: string := "TEMPO_OCOR_DENUNCIA"

  /** mask_validas for one row. */
  predicate BothDated(r: Row) {
    !Get(r, "DT_NOTIFIC").Null? && !Get(r, "DT_OCOR").Null?
  }

  /** The delay of one row: missing unless both dates are there and the difference is in range. */
  function DelayCell(r: Row): Cell {
    if BothDated(r) then ComprehensiveDerived.ReportDelay(Get(r, "DT_NOTIFIC"), Get(r, "DT_OCOR")) else Null
  }

  /** The column is first set to missing, then filled for the valid rows when there is one. */
  function DelayStage(f: Frame): Frame {
    if "DT_OCOR" in f.columns && "DT_NOTIFIC" in f.columns then
      if exists i :: 0 <= i < |f.rows| && BothDated(f.rows[i]) then MapColumn(f, DELAY_COLUMN, DelayCell)
      else FillColumn(f, DELAY_COLUMN, Null)
    else f
  }

  /**
   * The any() guard changes nothing: with both date columns the delay
   * column is the per-row delay, whether or not some row is valid.
   */
  lemma DelayStageIsPerRow(f: Frame)
    requires "DT_OCOR" in f.columns && "DT_NOTIFIC" in f.columns
    ensures DelayStage(f) == MapColumn(f, DELAY_COLUMN, DelayCell)
  {
    if !exists i :: 0 <= i < |f.rows| && BothDated(f.rows[i]) {
      var g := FillColumn(f, DELAY_COLUMN, Null);
      var h := MapColumn(f, DELAY_COLUMN, DelayCell);
      assert |g.rows| == |h.rows|;
      forall i | 0 <= i < |g.rows|
        ensures g.rows[i] == h.rows[i]
      {
        assert !BothDated(f.rows[i]);
      }
    }
  }

  /** A delay is a day count in [0, 3650], and present exactly for two in-range timestamps. */
  lemma DelayCellRange(r: Row)
    ensures DelayCell(r).Null? || DelayCell(r).Num?
    ensures DelayCell(r).Num? <==>
              Get(r, "DT_NOTIFIC").Date? && Get(r, "DT_OCOR").Date? &&
              0 <= Get(r, "DT_NOTIFIC").t.day - Get(r, "DT_OCOR").t.day <= ComprehensiveDerived.MAX_DELAY_DAYS
    ensures DelayCell(r).Num? ==> 0 <= DelayCell(r).n <= ComprehensiveDerived.MAX_DELAY_DAYS
  {
  }

  method AddReportDelay(data: Frame) returns (df: Frame)
    ensures df == DelayStage(data)
  {
    df := data;
    if "DT_OCOR" in data.columns && "DT_NOTIFIC" in data.columns {
      var any := false;
      for i := 0 to |data.rows|
        invariant any <==> exists j :: 0 <= j < i && BothDated(data.rows[j])
      {
        if BothDated(data.rows[i]) {
          any := true;
        }
      }
      if any {
        df := ApplyRows(data, DELAY_COLUMN, DelayCell);
      } else {
        df := FillColumn(data, DELAY_COLUMN, Null);
      }
    }
  }

  // ---------------------------------------------------------------------
  // Justice referrals

  const ENC_COLUMNS: seq<string> := ["ENC_DELEG", "ENC_DPCA", "ENC_MPU", "ENC_VARA"]
  const ENC_COLUMN: string := "ENCAMINHAMENTOS_JUSTICA"
  const NO_REFERRAL: string := "Nenhum"

  /** The dashboard's label of a referral column. */
  function EncName(c: string): string {
    if c == "ENC_DELEG" then "Delegacia"
    else if c == "ENC_DPCA" then "DPCA"
    else if c == "ENC_MPU" then "Ministério Público"
    else if c == "ENC_VARA" then "Vara da Infância"
    else ""
  }

  /**
   * The labels of the columns among cols that pass the referral test, in
   * column order.
   */
  function EncLabels(referred: string -> bool, cols: seq<string>): (labels: seq<string>)
    ensures |labels| <= |cols|
    ensures forall l :: l in labels ==> exists c :: c in cols && referred(c) && l == EncName(c)
    ensures forall c :: c in cols && referred(c) ==> EncName(c) in labels
  {
    if cols == [] then []
    else
      var c := cols[|cols| - 1];
      EncLabels(referred, cols[..|cols| - 1]) + (if referred(c) then [EncName(c)] else [])
  }

  /** What get_encaminhamentos_justica returns. */
  function EncText(r: Row): string {
    JoinOr(EncLabels(ComprehensiveDerived.ReferredIn(r), ENC_COLUMNS), NO_REFERRAL)
  }

  /** get_encaminhamentos_justica: the loop over the four referral columns. */
  method GetEncaminhamentosJustica(row: Row) returns (text: string)
    ensures text == EncText(row)
  {
    var encs: seq<string> := [];
    for k := 0 to |ENC_COLUMNS|
      invariant encs == EncLabels(ComprehensiveDerived.ReferredIn(row), ENC_COLUMNS[..k])
    {
      var col := ENC_COLUMNS[k];
      assert ENC_COLUMNS[..k + 1][..k] == ENC_COLUMNS[..k];
      if col in row && !row[col].Null? {
        var val := Strip(Upper(CellText(row[col])));
        if ComprehensiveDerived.IsReferralText(val) {
          encs := encs + [EncName(col)];
        }
      }
    }
    assert ENC_COLUMNS[..|ENC_COLUMNS|] == ENC_COLUMNS;
    if encs != [] {
      text := Join(", ", encs);
    } else {
      text := NO_REFERRAL;
    }
  }

  /** Each referral label is a clean list item that does not open like 'Nenhum'. */
  lemma EncNameClean(c: string)
    requires c in ENC_COLUMNS
    ensures EncName(c) != "" && ',' !in EncName(c) && IsStripped(EncName(c)) && EncName(c)[0] != 'N'
  {
  }

  /**
   * The referral text is never empty, is 'Nenhum' exactly when no column
   * passes the test, and otherwise splits back into its labels.
   */
  lemma EncLabelsText(referred: string -> bool)
    ensures var labels := EncLabels(referred, ENC_COLUMNS);
            && JoinOr(labels, NO_REFERRAL) != ""
            && (JoinOr(labels, NO_REFERRAL) == NO_REFERRAL <==> forall c :: c in ENC_COLUMNS ==> !referred(c))
            && (labels != [] ==> StripAll(SplitOn(JoinOr(labels, NO_REFERRAL), ',')) == labels)
  {
    var labels := EncLabels(referred, ENC_COLUMNS);
    JoinOrNonEmpty(labels, NO_REFERRAL);
    if labels != [] {
      forall l | l in labels
        ensures l != "" && ',' !in l && IsStripped(l)
      {
        var c :| c in ENC_COLUMNS && l == EncName(c);
        EncNameClean(c);
      }
      assert labels[0] in labels;
      var c :| c in ENC_COLUMNS && labels[0] == EncName(c);
      EncNameClean(c);
      SplitJoinRoundTrip(labels);
      JoinHead(", ", labels);
    }
  }

  /** ENCAMINHAMENTOS_JUSTICA is never empty and is 'Nenhum' exactly when no referral holds. */
  lemma EncTextCases(r: Row)
    ensures EncText(r) != ""
    ensures EncText(r) == NO_REFERRAL <==> forall c :: c in ENC_COLUMNS ==> !ComprehensiveDerived.IsReferred(r, c)
    ensures EncText(r) != NO_REFERRAL ==>
              StripAll(SplitOn(EncText(r), ',')) == EncLabels(ComprehensiveDerived.ReferredIn(r), ENC_COLUMNS)
  {
    EncLabelsText(ComprehensiveDerived.ReferredIn(r));
  }

  function EncCell(r: Row): Cell {
    Str(EncText(r))
  }

  /** ENCAMINHAMENTOS_JUSTICA, or 'Não informado' without any referral column. */
  function EncStage(f: Frame): Frame {
    if exists c :: c in ENC_COLUMNS && c in f.columns then MapColumn(f, ENC_COLUMN, EncCell)
    else FillColumn(f, ENC_COLUMN, Str(NOT_INFORMED))
  }

  // ---------------------------------------------------------------------
  // State names

  /**
   * The integer half of uf_dict: it lists the same 27 codes as the text
   * half, written as numbers, so n is a key exactly when str(n) is a text key.
   */
  predicate IsUfNumber(n: int) {
    n >= 0 && NatToDecimal(n) in ComprehensiveDerived.UF_NAMES
  }

  /**
   * int(float(val)) where it succeeds: a number is itself, a text that is
   * digits with at most one '.' is the value of the digits before the
   * point; anything else (a timestamp, other text) raises.
   */
  function FloatInt(v: Cell): Option<int> {
    if v.Num? then Some(v.n)
    else if v.Str? && IsDigits(ReplaceFirst(Strip(v.s), ".", "")) then
      ComprehensiveDerived.IntegerPartDigits(Strip(v.s));
      Some(DigitsValue(ComprehensiveDerived.IntegerPart(Strip(v.s))))
    else None
  }

  /** map_uf: the text key first, then the integer key, else the stripped text. */
  function MapUf(v: Cell): string {
    if v.Null? then NOT_INFORMED
    else
      var s := Strip(CellText(v));
      if s in ComprehensiveDerived.UF_NAMES then ComprehensiveDerived.UF_NAMES[s]
      else if FloatInt(v).Some? && IsUfNumber(FloatInt(v).value) then
        ComprehensiveDerived.UF_NAMES[NatToDecimal(FloatInt(v).value)]
      else s
  }

  /**
   * The dashboard's map_uf and the processor's agree on every value but a
   * timestamp: the integer keys find exactly the states the processor finds
   * through str(int(float(val))).
   */
  lemma MapUfMatchesProcessor(v: Cell)
    requires !v.Date?
    ensures MapUf(v) == ComprehensiveDerived.MapUf(v)
  {
    if v.Num? {
      StripOfDecimal(v.n);
      if IntToDecimal(v.n) !in ComprehensiveDerived.UF_NAMES {
        MapUfOfNumber(v.n);
      }
    } else if v.Str? {
      var s := Strip(v.s);
      if s !in ComprehensiveDerived.UF_NAMES && IsDigits(ReplaceFirst(s, ".", "")) {
        ComprehensiveDerived.IntegerPartDigits(s);
      }
    }
  }

  /** A number that is not a text key written out is looked up the same way by both copies. */
  lemma MapUfOfNumber(n: int)
    requires IntToDecimal(n) !in ComprehensiveDerived.UF_NAMES
    ensures MapUf(Num(n)) == ComprehensiveDerived.MapUf(Num(n)) == IntToDecimal(n)
  {
    DashboardUfOfNumber(n);
    ProcessorUfOfNumber(n);
  }

  /** The dashboard's copy writes such a number out as it stands. */
  lemma DashboardUfOfNumber(n: int)
    requires IntToDecimal(n) !in ComprehensiveDerived.UF_NAMES
    ensures MapUf(Num(n)) == IntToDecimal(n)
  {
    var s := IntToDecimal(n);
    assert Strip(CellText(Num(n))) == s by {
      StripOfDecimal(n);
    }
    assert !IsUfNumber(n);
    assert FloatInt(Num(n)) == Some(n);
  }

  /** So does the processor's copy. */
  lemma ProcessorUfOfNumber(n: int)
    requires IntToDecimal(n) !in ComprehensiveDerived.UF_NAMES
    ensures ComprehensiveDerived.MapUf(Num(n)) == IntToDecimal(n)
  {
    var s := IntToDecimal(n);
    StripOfDecimal(n);
    ComprehensiveDerived.IntegerPartOfPlain(s);
    if n >= 0 {
      NatToDecimalValue(n);
    } else {
      assert !IsDigit(s[0]);
    }
  }

  /** str(n) has no surrounding whitespace and no point. */
  lemma StripOfDecimal(n: int)
    ensures Strip(IntToDecimal(n)) == IntToDecimal(n)
    ensures '.' !in IntToDecimal(n)
  {
    var s := IntToDecimal(n);
    var d := NatToDecimal(if n < 0 then -n else n);
    assert forall i :: 0 <= i < |d| ==> IsDigit(d[i]);
    assert forall i :: 0 <= i < |s| ==> !IsSpace(s[i]) && s[i] != '.';
    ComprehensiveDerived.NoSpaceIsStripped(s);
  }

  /** UF_NOTIFIC from SG_UF_NOT, else SG_UF, else 'N/A'. */
  function UfStage(f: Frame): Frame {
    if "SG_UF_NOT" in f.columns then MapColumn(f, "UF_NOTIFIC", r => Str(MapUf(Get(r, "SG_UF_NOT"))))
    else if "SG_UF" in f.columns then MapColumn(f, "UF_NOTIFIC", r => Str(MapUf(Get(r, "SG_UF"))))
    else FillColumn(f, "UF_NOTIFIC", Str("N/A"))
  }

  // ---------------------------------------------------------------------
  // Violence type

  /** The texts get_violence_type reads as "yes". */
  const TYPE_CHECK: seq<string> := ["SIM", "1", "S", "1.0"]

  /** str(row.get(c)).upper() for a present value, '' otherwise, is a "yes"; nothing is stripped. */
  predicate IsAffirmed(r: Row, c: string) {
    var v := Get(r, c);
    (if v.Null? then "" else Upper(CellText(v))) in TYPE_CHECK
  }

  /** The labels of the affirmed kinds, in the order Física, Psicológica, Sexual, Infantil. */
  function ViolenceLabels(r: Row): seq<string> {
    ComprehensiveDerived.KindLabels(IsAffirmed(r, "VIOL_FISIC"), IsAffirmed(r, "VIOL_PSICO"),
                                    IsAffirmed(r, "VIOL_SEXU"), IsAffirmed(r, "VIOL_INFAN"))
  }

  /** What get_violence_type returns. */
  function ViolenceType(r: Row): string {
    JoinOr(ViolenceLabels(r), ComprehensiveDerived.TYPE_SENTINEL)
  }

  /** get_violence_type: the four tests, each appending its label, then the sentinel for none. */
  method GetViolenceType(row: Row) returns (violenceType: string)
    ensures violenceType == ViolenceType(row)
  {
    var types := ComprehensiveDerived.AffirmedLabels(IsAffirmed(row, "VIOL_FISIC"), IsAffirmed(row, "VIOL_PSICO"),
                                                     IsAffirmed(row, "VIOL_SEXU"), IsAffirmed(row, "VIOL_INFAN"));
    if types == [] {
      types := types + [ComprehensiveDerived.TYPE_SENTINEL];
    }
    violenceType := Join(", ", types);
  }

  /**
   * TIPO_VIOLENCIA is never empty, lists a kind exactly when the row affirms
   * it, splits back into the labels, and is the sentinel exactly when no
   * kind is affirmed.
   */
  lemma ViolenceTypeRoundTrip(r: Row)
    ensures ViolenceType(r) != ""
    ensures "Física" in ViolenceLabels(r) <==> IsAffirmed(r, "VIOL_FISIC")
    ensures "Sexual" in ViolenceLabels(r) <==> IsAffirmed(r, "VIOL_SEXU")
    ensures ViolenceLabels(r) != [] ==> StripAll(SplitOn(ViolenceType(r), ',')) == ViolenceLabels(r)
    ensures ViolenceType(r) == ComprehensiveDerived.TYPE_SENTINEL <==> ViolenceLabels(r) == []
  {
    var a, b, c, d := IsAffirmed(r, "VIOL_FISIC"), IsAffirmed(r, "VIOL_PSICO"),
                      IsAffirmed(r, "VIOL_SEXU"), IsAffirmed(r, "VIOL_INFAN");
    ComprehensiveDerived.KindLabelsMembership(a, b, c, d);
    ComprehensiveDerived.KindTextRoundTrip(a, b, c, d);
  }

  function TipoCell(r: Row): Cell {
    Str(ViolenceType(r))
  }

  /** TIPO_VIOLENCIA for every row. */
  function TipoStage(f: Frame): Frame {
    MapColumn(f, "TIPO_VIOLENCIA", TipoCell)
  }

  // ---------------------------------------------------------------------
  // Age group

  /** 'ano' at j, ignoring case. */
  predicate AnoAt(s: string, j: nat) {
    j + 3 <= |s| && LowerChar(s[j]) == 'a' && LowerChar(s[j + 1]) == 'n' && LowerChar(s[j + 2]) == 'o'
  }

  /** \s*ano from j: whitespace skipped, then 'ano' ignoring case. */
  predicate SpacesThenAno(s: string, j: nat)
    decreases |s| - j
  {
    AnoAt(s, j) || (j < |s| && IsSpace(s[j]) && SpacesThenAno(s, j + 1))
  }

  /** (\d{1,2})\s*ano tried at i: two digits first, then one, as the greedy match backtracks. */
  function AgeMatchAt(s: string, i: nat): Option<nat> {
    if i + 1 < |s| && IsDigit(s[i]) && IsDigit(s[i + 1]) && SpacesThenAno(s, i + 2) then
      Some(DigitOf(s[i]) * 10 + DigitOf(s[i + 1]))
    else if i < |s| && IsDigit(s[i]) && SpacesThenAno(s, i + 1) then Some(DigitOf(s[i]))
    else None
  }

  /** re.search: the number of the leftmost match from i on. */
  function SearchAge(s: string, i: nat): (r: Option<nat>)
    ensures r.Some? ==> r.value < 100
    decreases |s| - i
  {
    if i >= |s| then None
    else if AgeMatchAt(s, i).Some? then AgeMatchAt(s, i)
    else SearchAge(s, i + 1)
  }

  /** The list of known texts consulted when the pattern finds nothing. */
  function KnownAgeNumber(s: string): Option<nat> {
    if s == "01 ano" || s == "1 ano" then Some(1)
    else if s == "02 anos" || s == "2 anos" then Some(2)
    else if s == "03 anos" || s == "3 anos" then Some(3)
    else if s == "04 anos" || s == "4 anos" then Some(4)
    else if s == "05 anos" || s == "5 anos" then Some(5)
    else if s == "06 anos" || s == "6 anos" then Some(6)
    else if s == "07 anos" || s == "7 anos" then Some(7)
    else if s == "08 anos" || s == "8 anos" then Some(8)
    else if s == "09 anos" || s == "9 anos" then Some(9)
    else if s == "10 anos" then Some(10)
    else if s == "11 anos" then Some(11)
    else if s == "12 anos" then Some(12)
    else if s == "13 anos" then Some(13)
    else if s == "14 anos" then Some(14)
    else if s == "15 anos" then Some(15)
    else if s == "16 anos" then Some(16)
    else if s == "17 anos" then Some(17)
    else None
  }

  /** The classification of get_age_group: 0 or 1, 2-5, 6-9, 10-13, 14-17, anything else not informed. */
  function BandOfNumber(n: nat): string {
    if n == 0 || n == 1 then "0-1 anos"
    else if 2 <= n <= 5 then "2-5 anos"
    else if 6 <= n <= 9 then "6-9 anos"
    else if 10 <= n <= 13 then "10-13 anos"
    else if 14 <= n <= 17 then "14-17 anos"
    else NOT_INFORMED
  }

  /** The dashboard's classification of a number of years is the processor's. */
  lemma BandOfNumberMatchesProcessor(n: nat)
    ensures BandOfNumber(n) == ComprehensiveFilter.BandOfYears(n)
    ensures BandOfNumber(n) == NOT_INFORMED <==> n >= 18
    ensures BandOfNumber(n) == "0-1 anos" <==> n <= 1
    ensures BandOfNumber(n) == "2-5 anos" <==> 2 <= n <= 5
    ensures BandOfNumber(n) == "6-9 anos" <==> 6 <= n <= 9
    ensures BandOfNumber(n) == "10-13 anos" <==> 10 <= n <= 13
    ensures BandOfNumber(n) == "14-17 anos" <==> 14 <= n <= 17
  {
  }

  /** get_age_group on one value. */
  function AgeGroup(v: Cell): string {
    if v.Null? then NOT_INFORMED else AgeGroupOfText(Strip(CellText(v)))
  }

  /** The first test of the stripped text, on its lower-case form: 'menor de' anywhere, or one of two labels. */
  predicate IsInfantText(l: string) {
    Contains(l, "menor de") || l == "menor de 01 ano" || l == "menor de 1 ano"
  }

  /** The number of years: the pattern's match, else the list of known texts. */
  function AgeNumber(s: string): (r: Option<nat>)
    ensures SearchAge(s, 0).Some? ==> r == SearchAge(s, 0)
  {
    if SearchAge(s, 0).Some? then SearchAge(s, 0) else KnownAgeNumber(s)
  }

  /** The band of a stripped text. */
  function AgeGroupOfText(s: string): string {
    if IsInfantText(Lower(s)) then "0-1 anos"
    else
      var n := AgeNumber(s);
      if n.Some? then BandOfNumber(n.value) else NOT_INFORMED
  }

  /**
   * get_age_group by cases: missing is not informed; 'menor de' anywhere,
   * ignoring case, is the first band; otherwise the first number the pattern
   * finds gives the band, and without one the value is not informed.
   */
  lemma AgeGroupCases(v: Cell)
    ensures v.Null? ==> AgeGroup(v) == NOT_INFORMED
    ensures !v.Null? && Contains(Lower(Strip(CellText(v))), "menor de") ==> AgeGroup(v) == "0-1 anos"
    ensures !v.Null? && !IsInfantText(Lower(Strip(CellText(v)))) ==>
              var n := SearchAge(Strip(CellText(v)), 0);
              AgeGroup(v) == if n.Some? then BandOfNumber(n.value) else NOT_INFORMED
  {
    if !v.Null? {
      KnownTextsAreMatched(Strip(CellText(v)));
    }
  }

  /** A stripped text is classified as it stands. */
  lemma AgeGroupOfStripped(s: string)
    requires IsStripped(s)
    ensures AgeGroup(Str(s)) == AgeGroupOfText(s)
  {
    StripOfStripped(s);
  }

  /** A text shorter than the pattern does not contain it. */
  lemma {:induction false} ShortNoContains(s: string, p: string)
    requires |s| < |p|
    ensures !Contains(s, p)
    decreases |s|
  {
    if s != [] {
      ShortNoContains(s[1..], p);
    }
  }

  /** s opens with " ano" at j. */
  predicate SpaceAnoAt(s: string, j: nat) {
    j + 4 <= |s| && s[j] == ' ' && s[j + 1] == 'a' && s[j + 2] == 'n' && s[j + 3] == 'o'
  }

  /** Two digits, a space and 'ano' at the start: the pattern matches there with their value. */
  lemma TwoDigitAge(s: string)
    requires |s| >= 2 && IsDigit(s[0]) && IsDigit(s[1]) && SpaceAnoAt(s, 2)
    ensures SearchAge(s, 0) == Some(DigitOf(s[0]) * 10 + DigitOf(s[1]))
  {
    assert AnoAt(s, 3);
    assert SpacesThenAno(s, 2);
  }

  /** One digit, a space and 'ano' at the start: the pattern matches there with its value. */
  lemma OneDigitAge(s: string)
    requires |s| >= 1 && IsDigit(s[0]) && SpaceAnoAt(s, 1)
    ensures SearchAge(s, 0) == Some(DigitOf(s[0]))
  {
    assert AnoAt(s, 2);
    assert SpacesThenAno(s, 1);
  }

  /** Every text on the known list has one or two digits followed by " ano". */
  lemma KnownTextShape(s: string)
    requires KnownAgeNumber(s).Some?
    ensures (|s| >= 2 && IsDigit(s[0]) && IsDigit(s[1]) && SpaceAnoAt(s, 2)) ||
            (|s| >= 1 && IsDigit(s[0]) && SpaceAnoAt(s, 1))
  {
    if s == "1 ano" || s == "2 anos" || s == "3 anos" || s == "4 anos" || s == "5 anos" || s == "6 anos" || s == "7 anos" || s == "8 anos" || s == "9 anos" {
      OneDigitKnownShape(s);
    } else if s == "01 ano" || s == "02 anos" || s == "03 anos" || s == "04 anos" || s == "05 anos" || s == "06 anos" || s == "07 anos" || s == "08 anos" || s == "09 anos" {
      LeadingZeroKnownShape(s);
    } else {
      TeenKnownShape(s);
    }
  }

  lemma OneDigitKnownShape(s: string)
    requires s == "1 ano" || s == "2 anos" || s == "3 anos" || s == "4 anos" || s == "5 anos" || s == "6 anos" || s == "7 anos" || s == "8 anos" || s == "9 anos"
    ensures |s| >= 1 && IsDigit(s[0]) && SpaceAnoAt(s, 1)
  {
  }

  lemma LeadingZeroKnownShape(s: string)
    requires s == "01 ano" || s == "02 anos" || s == "03 anos" || s == "04 anos" || s == "05 anos" || s == "06 anos" || s == "07 anos" || s == "08 anos" || s == "09 anos"
    ensures |s| >= 2 && IsDigit(s[0]) && IsDigit(s[1]) && SpaceAnoAt(s, 2)
  {
  }

  lemma TeenKnownShape(s: string)
    requires s == "10 anos" || s == "11 anos" || s == "12 anos" || s == "13 anos" || s == "14 anos" || s == "15 anos" || s == "16 anos" || s == "17 anos"
    ensures |s| >= 2 && IsDigit(s[0]) && IsDigit(s[1]) && SpaceAnoAt(s, 2)
  {
  }

  /**
   * The list of known texts never decides anything: it is consulted only
   * when the pattern finds no number, and then no listed text can be there.
   */
  lemma KnownTextsAreMatched(s: string)
    ensures SearchAge(s, 0).None? ==> KnownAgeNumber(s).None?
  {
    if KnownAgeNumber(s).Some? {
      KnownTextShape(s);
      if |s| >= 2 && IsDigit(s[0]) && IsDigit(s[1]) && SpaceAnoAt(s, 2) {
        TwoDigitAge(s);
      } else {
        OneDigitAge(s);
      }
    }
  }

  /** A stripped text shorter than 'menor de' with a matched number gets that number's band. */
  lemma AgeGroupOfMatched(s: string, n: nat)
    requires IsStripped(s) && |s| < 8 && SearchAge(s, 0) == Some(n)
    ensures AgeGroup(Str(s)) == BandOfNumber(n)
  {
    AgeGroupOfStripped(s);
    assert !IsInfantText(Lower(s)) by {
      ShortNoContains(Lower(s), "menor de");
    }
  }

  /** The decimal form of a number below 100 has at most two digits. */
  lemma ShortDecimal(n: nat)
    requires n < 100
    ensures |NatToDecimal(n)| == (if n < 10 then 1 else 2)
  {
  }

  /** A two-digit text is worth its two digits. */
  lemma TwoDigitsValue(k: string)
    requires |k| == 2 && IsDigits(k)
    ensures DigitsValue(k) == DigitOf(k[0]) * 10 + DigitOf(k[1])
  {
    assert k[..|k| - 1] == k[..1];
    assert k[..1][..0] == [];
    assert DigitsValue(k[..1]) == DigitsValue(k[..1][..0]) * 10 + DigitOf(k[0]);
  }

  /** The label "NN anos" of a number below 100 is matched by the pattern with that number. */
  lemma YearsLabelMatched(i: nat)
    requires i < 100
    ensures var s := ZeroPad(i, 2) + " anos"; IsStripped(s) && |s| == 7 && SearchAge(s, 0) == Some(i)
  {
    var z := ZeroPad(i, 2);
    var s := z + " anos";
    ShortDecimal(i);
    assert |z| == 2;
    assert s[0] == z[0] && s[1] == z[1];
    TwoDigitAge(s);
    TwoDigitsValue(z);
    ZeroPadValue(i, 2);
  }

  /**
   * The decoded label of every age under 18 gets the band of its number of
   * years, the same band the processor's create_faixa_etaria gives it.
   */
  lemma DecodedAgeGroup(i: nat)
    requires i < 18
    ensures AgeGroup(Str(ComprehensiveDicts.AgeLabel(i))) == BandOfNumber(i)
    ensures AgeGroup(Str(ComprehensiveDicts.AgeLabel(i))) == ComprehensiveFilter.BandOfYears(i)
  {
    BandOfNumberMatchesProcessor(i);
    if i == 0 {
      InfantLabelGroup();
    } else if i == 1 {
      OneYearGroup();
    } else {
      YearsLabelGroup(i);
    }
  }

  /** '01 ano' is the first band. */
  lemma OneYearGroup()
    ensures AgeGroup(Str("01 ano")) == BandOfNumber(1)
  {
    var s := "01 ano";
    TwoDigitAge(s);
    AgeGroupOfMatched(s, 1);
  }

  /** 'NN anos' gets the band of NN. */
  lemma YearsLabelGroup(i: nat)
    requires i < 100
    ensures AgeGroup(Str(ZeroPad(i, 2) + " anos")) == BandOfNumber(i)
  {
    YearsLabelMatched(i);
    AgeGroupOfMatched(ZeroPad(i, 2) + " anos", i);
  }

  /** A text without upper-case letters is its own lower-case form. */
  lemma LowerOfNoUpper(s: string)
    requires forall k :: 0 <= k < |s| ==> !IsUpperLetter(s[k])
    ensures Lower(s) == s
  {
  }

  /** s opens with 'menor de' in lower case. */
  predicate OpensWithMenorDe(s: string) {
    |s| >= 8 && s[0] == 'm' && s[1] == 'e' && s[2] == 'n' && s[3] == 'o' && s[4] == 'r' &&
    s[5] == ' ' && s[6] == 'd' && s[7] == 'e'
  }

  /** A stripped text that opens with 'menor de' is the first band. */
  lemma InfantTextGroup(s: string)
    requires IsStripped(s) && OpensWithMenorDe(s)
    ensures AgeGroup(Str(s)) == "0-1 anos"
  {
    AgeGroupOfStripped(s);
    assert OpensWithMenorDe(Lower(s));
    MenorDeContained(Lower(s));
  }

  /** A text that opens with 'menor de' contains it. */
  lemma MenorDeContained(l: string)
    requires OpensWithMenorDe(l)
    ensures Contains(l, "menor de")
  {
    assert "menor de" <= l;
  }

  /** 'menor de 01 ano' is the first band. */
  lemma InfantLabelGroup()
    ensures AgeGroup(Str("menor de 01 ano")) == "0-1 anos"
  {
    InfantTextGroup("menor de 01 ano");
  }

  /** A text without digits from i on has no match from i on. */
  lemma {:induction false} NoDigitNoAge(s: string, i: nat)
    requires forall k :: i <= k < |s| ==> !IsDigit(s[k])
    ensures SearchAge(s, i).None?
    decreases |s| - i
  {
    if i < |s| {
      NoDigitNoAge(s, i + 1);
    }
  }

  /** A short stripped text the pattern finds no number in is not informed. */
  lemma AgeGroupOfUnmatched(s: string)
    requires IsStripped(s) && |s| < 8 && SearchAge(s, 0).None?
    ensures AgeGroup(Str(s)) == NOT_INFORMED
  {
    AgeGroupOfStripped(s);
    assert !IsInfantText(Lower(s)) by {
      ShortNoContains(Lower(s), "menor de");
    }
    KnownTextsAreMatched(s);
  }

  /** A decoded missing age, the text 'nan', is not informed, and so is a missing value. */
  lemma MissingAgeGroup()
    ensures AgeGroup(Str("nan")) == NOT_INFORMED
    ensures AgeGroup(Null) == NOT_INFORMED
  {
    var s := "nan";
    assert forall k :: 0 <= k < |s| ==> !IsDigit(s[k]);
    NoDigitNoAge(s, 0);
    AgeGroupOfUnmatched(s);
  }

  /** An age of 18 years or more written "NN anos" is not informed: there is no adult band. */
  lemma AdultAgeNotInformed(n: nat)
    requires 18 <= n < 100
    ensures AgeGroup(Str(ZeroPad(n, 2) + " anos")) == NOT_INFORMED
  {
    YearsLabelGroup(n);
    BandOfNumberMatchesProcessor(n);
  }

  /** FAIXA_ETARIA from NU_IDADE_N, or 'Não informado' without it. */
  function FaixaStage(f: Frame): Frame {
    if "NU_IDADE_N" in f.columns then MapColumn(f, "FAIXA_ETARIA", r => Str(AgeGroup(Get(r, "NU_IDADE_N"))))
    else FillColumn(f, "FAIXA_ETARIA", Str(NOT_INFORMED))
  }

  // ---------------------------------------------------------------------
  // Victim and aggressor sex

  const MALE_TEXTS: seq<string> := ["M", "1", "MASCULINO", "MAS"]
  const FEMALE_TEXTS: seq<string> := ["F", "2", "FEMININO", "FEM"]

  /** map_sexo on the normalised text: the default is 'Não informado'. */
  function SexOfText(s: string): (r: string)
    ensures r == "Masculino" <==> s in MALE_TEXTS
    ensures r == "Feminino" <==> s in FEMALE_TEXTS
    ensures r == NOT_INFORMED <==> s !in MALE_TEXTS && s !in FEMALE_TEXTS
  {
    if s in MALE_TEXTS then "Masculino"
    else if s in FEMALE_TEXTS then "Feminino"
    else NOT_INFORMED
  }

  /** map_sexo: missing is not informed, otherwise str(val).upper().strip(), then the label. */
  function MapSexo(v: Cell): string {
    if v.Null? then NOT_INFORMED else SexOfText(Strip(Upper(CellText(v))))
  }

  /**
   * The dashboard's sex labels agree with the processor's on the processor's
   * codes; they differ on 'MAS' and 'FEM', which only the dashboard reads,
   * and on every other text, which the processor calls 'Ignorado'.
   */
  lemma SexCopiesCompared(s: string)
    ensures s in ComprehensiveDerived.MALE_TEXTS || s in ComprehensiveDerived.FEMALE_TEXTS ==>
              SexOfText(s) == ComprehensiveDerived.SexOfText(s)
    ensures ComprehensiveDerived.SexOfText(s) == "Ignorado" ==>
              SexOfText(s) == (if s == "MAS" then "Masculino" else if s == "FEM" then "Feminino" else NOT_INFORMED)
  {
  }

  /** SEXO from CS_SEXO, or 'Não informado' without it. */
  function SexStage(f: Frame): Frame {
    if "CS_SEXO" in f.columns then MapColumn(f, "SEXO", r => Str(MapSexo(Get(r, "CS_SEXO"))))
    else FillColumn(f, "SEXO", Str(NOT_INFORMED))
  }

  const AUTOR_MALE_TEXTS: seq<string> := ["1", "M", "MASCULINO", "MAS"]
  const AUTOR_FEMALE_TEXTS: seq<string> := ["2", "F", "FEMININO", "FEM"]
  const AUTOR_OTHER_TEXTS: seq<string> := ["3", "OUTROS", "OUTRO"]
  const AUTOR_IGNORED_TEXTS: seq<string> := ["9", "IGNORADO", "IGN"]

  /** map_autor_sexo on the normalised text: a relationship word or any other text is not informed. */
  function AutorSexOfText(s: string): (r: string)
    ensures r in ["Masculino", "Feminino", "Outros", "Ignorado", NOT_INFORMED]
    ensures r == "Masculino" <==> s in AUTOR_MALE_TEXTS
    ensures r == "Feminino" <==> s in AUTOR_FEMALE_TEXTS
    ensures r == "Outros" <==> s in AUTOR_OTHER_TEXTS
    ensures r == "Ignorado" <==> s in AUTOR_IGNORED_TEXTS
  {
    if s in AUTOR_MALE_TEXTS then "Masculino"
    else if s in AUTOR_FEMALE_TEXTS then "Feminino"
    else if s in AUTOR_OTHER_TEXTS then "Outros"
    else if s in AUTOR_IGNORED_TEXTS then "Ignorado"
    else NOT_INFORMED
  }

  function MapAutorSexo(v: Cell): string {
    if v.Null? then NOT_INFORMED else AutorSexOfText(Strip(Upper(CellText(v))))
  }

  /** AUTOR_SEXO_CORRIGIDO from AUTOR_SEXO, or 'Não informado' without it. */
  function AutorSexoStage(f: Frame): Frame {
    if "AUTOR_SEXO" in f.columns then
      MapColumn(f, "AUTOR_SEXO_CORRIGIDO", r => Str(MapAutorSexo(Get(r, "AUTOR_SEXO"))))
    else FillColumn(f, "AUTOR_SEXO_CORRIGIDO", Str(NOT_INFORMED))
  }

  // ---------------------------------------------------------------------
  // Relationship to the aggressor

  /** The dashboard's RELACIONAMENTO_DICT. */
  const REL_DICT: map<string, string> := map[
    "REL_PAI" := "Pai", "REL_MAE" := "Mãe", "REL_PAD" := "Padrasto", "REL_MAD" := "Madrasta",
    "REL_CONJ" := "Cônjuge", "REL_EXCON" := "Ex-cônjuge", "REL_NAMO" := "Namorado(a)",
    "REL_EXNAM" := "Ex-namorado(a)", "REL_FILHO" := "Filho(a)", "REL_IRMAO" := "Irmão(ã)",
    "REL_SEXUAL" := "Parceiro Sexual", "REL_DESCO" := "Desconhecido", "REL_CONHEC" := "Conhecido",
    "REL_CUIDA" := "Cuidador(a)", "REL_PATRAO" := "Patrão/Chefe", "REL_POL" := "Policial",
    "REL_INST" := "Funcionário de Instituição", "REL_PROPRI" := "Próprio/Autoagressão",
    "REL_OUTROS" := "Outros", "REL_ESPEC" := "Específico"]

  /** An unlisted column: its suffix title-cased, then seven common corrections in order. */
  function RelFallback(c: string): string {
    var t := ComprehensiveDerived.RelTitle(c);
    var t1 := Replace(t, "Exnam", "Ex-namorado(a)");
    var t2 := Replace(t1, "Excon", "Ex-cônjuge");
    var t3 := Replace(t2, "Conhec", "Conhecido");
    var t4 := Replace(t3, "Propri", "Próprio/Autoagressão");
    var t5 := Replace(t4, "Cuid", "Cuidador(a)");
    var t6 := Replace(t5, "Patrao", "Patrão/Chefe");
    Replace(t6, "Inst", "Funcionário de Instituição")
  }

  /** The name of a relationship column: the dictionary first, the fallback otherwise. */
  function RelName(c: string): string {
    if c in REL_DICT then REL_DICT[c] else RelFallback(c)
  }

  /** get_relacionamento's list: the name of every set flag, in column order, repeats kept. */
  function RelLabels(isSet: string -> bool, cols: seq<string>): (rels: seq<string>)
    ensures |rels| <= |cols|
    ensures forall l :: l in rels ==> exists c :: c in cols && isSet(c) && l == RelName(c)
    ensures forall c :: c in cols && isSet(c) ==> RelName(c) in rels
  {
    if cols == [] then []
    else
      var c := cols[|cols| - 1];
      RelLabels(isSet, cols[..|cols| - 1]) + (if isSet(c) then [RelName(c)] else [])
  }

  /** What get_relacionamento returns. */
  function RelText(r: Row, cols: seq<string>): string {
    JoinOr(RelLabels(ComprehensiveDerived.RelSetIn(r), cols), NOT_INFORMED)
  }

  /** get_relacionamento: the loop over the relationship columns, without a duplicate check. */
  method GetRelacionamento(row: Row, relCols: seq<string>) returns (text: string)
    ensures text == RelText(row, relCols)
  {
    var relacionamentos: seq<string> := [];
    for k := 0 to |relCols|
      invariant relacionamentos == RelLabels(ComprehensiveDerived.RelSetIn(row), relCols[..k])
    {
      var col := relCols[k];
      assert relCols[..k + 1][..k] == relCols[..k];
      if col in row && !row[col].Null? {
        var val := Strip(Upper(CellText(row[col])));
        if val in ComprehensiveDerived.REL_CHECK {
          var relacionamento: string;
          if col in REL_DICT {
            relacionamento := REL_DICT[col];
          } else {
            relacionamento := RelFallback(col);
          }
          relacionamentos := relacionamentos + [relacionamento];
        }
      }
    }
    assert relCols[..|relCols|] == relCols;
    if relacionamentos != [] {
      text := Join(", ", relacionamentos);
    } else {
      text := NOT_INFORMED;
    }
  }

  /** Unlike the processor's copy, a name two set columns share is listed twice. */
  lemma RelLabelsKeepRepeats(isSet: string -> bool, c1: string, c2: string)
    requires isSet(c1) && isSet(c2)
    ensures RelLabels(isSet, [c1, c2]) == [RelName(c1), RelName(c2)]
  {
    assert [c1, c2][..1] == [c1];
    assert [c1][..0] == [];
  }

  /** A clean list item: non-empty, no comma, no surrounding blanks, and not the default text. */
  predicate IsCleanLabel(l: string) {
    l != "" && ',' !in l && IsStripped(l) && l != NOT_INFORMED
  }

  /** The family names of the dictionary are clean list items. */
  lemma FamilyNamesClean(l: string)
    requires l == "Pai" || l == "Mãe" || l == "Padrasto" || l == "Madrasta" || l == "Cônjuge"
    ensures IsCleanLabel(l)
  {
  }

  lemma PartnerNamesClean(l: string)
    requires l == "Ex-cônjuge" || l == "Namorado(a)" || l == "Ex-namorado(a)" || l == "Filho(a)" || l == "Irmão(ã)"
    ensures IsCleanLabel(l)
  {
  }

  lemma OtherNamesClean(l: string)
    requires l == "Parceiro Sexual" || l == "Desconhecido" || l == "Conhecido" || l == "Cuidador(a)" || l == "Patrão/Chefe"
    ensures IsCleanLabel(l)
  {
  }

  lemma SpecialNamesClean(l: string)
    requires l == "Policial" || l == "Funcionário de Instituição" || l == "Próprio/Autoagressão" || l == "Outros" || l == "Específico"
    ensures IsCleanLabel(l)
  {
  }

  /** Every dictionary name is a clean list item. */
  lemma RelDictClean(c: string)
    requires c in REL_DICT
    ensures IsCleanLabel(RelName(c))
  {
    var l := REL_DICT[c];
    if l == "Pai" || l == "Mãe" || l == "Padrasto" || l == "Madrasta" || l == "Cônjuge" {
      FamilyNamesClean(l);
    } else if l == "Ex-cônjuge" || l == "Namorado(a)" || l == "Ex-namorado(a)" || l == "Filho(a)" || l == "Irmão(ã)" {
      PartnerNamesClean(l);
    } else if l == "Parceiro Sexual" || l == "Desconhecido" || l == "Conhecido" || l == "Cuidador(a)" || l == "Patrão/Chefe" {
      OtherNamesClean(l);
    } else {
      SpecialNamesClean(l);
    }
  }

  /**
   * Over dictionary columns, GRAU_PARENTESCO is never empty, is 'Não
   * informado' exactly when no flag is set, and otherwise splits back into
   * the names of the set flags.
   */
  lemma RelTextCases(r: Row, cols: seq<string>)
    requires forall c :: c in cols ==> c in REL_DICT
    ensures RelText(r, cols) != ""
    ensures RelText(r, cols) == NOT_INFORMED <==> forall c :: c in cols ==> !ComprehensiveDerived.IsRelSet(r, c)
    ensures RelText(r, cols) != NOT_INFORMED ==>
              StripAll(SplitOn(RelText(r, cols), ',')) == RelLabels(ComprehensiveDerived.RelSetIn(r), cols)
  {
    var rels := RelLabels(ComprehensiveDerived.RelSetIn(r), cols);
    forall l | l in rels
      ensures IsCleanLabel(l)
    {
      var c :| c in cols && ComprehensiveDerived.RelSetIn(r)(c) && l == RelName(c);
      RelDictClean(c);
    }
    CleanLabelsText(rels);
    if rels != [] {
      assert rels[0] in rels;
    } else {
      forall c | c in cols
        ensures !ComprehensiveDerived.IsRelSet(r, c)
      {
        assert ComprehensiveDerived.RelSetIn(r)(c) ==> RelName(c) in rels;
      }
    }
  }

  /** The default text has no comma. */
  lemma NotInformedNoComma()
    ensures ',' !in NOT_INFORMED
  {
    assert forall k :: 0 <= k < |NOT_INFORMED| ==> NOT_INFORMED[k] != ',';
  }

  /** Two or more items joined hold the separator's comma. */
  lemma JoinedComma(xs: seq<string>)
    requires |xs| >= 2
    ensures ',' in Join(", ", xs)
  {
    assert Join(", ", xs)[|xs[0]|] == ',';
  }

  /** Clean labels joined: never empty, the default exactly for none, and split back otherwise. */
  lemma CleanLabelsText(rels: seq<string>)
    requires forall l :: l in rels ==> IsCleanLabel(l)
    ensures JoinOr(rels, NOT_INFORMED) != ""
    ensures JoinOr(rels, NOT_INFORMED) == NOT_INFORMED <==> rels == []
    ensures rels != [] ==> StripAll(SplitOn(JoinOr(rels, NOT_INFORMED), ',')) == rels
  {
    JoinOrNonEmpty(rels, NOT_INFORMED);
    if rels != [] {
      SplitJoinRoundTrip(rels);
      assert rels[0] in rels;
      if |rels| >= 2 {
        JoinedComma(rels);
        NotInformedNoComma();
      }
    }
  }

  function RelCell(relCols: seq<string>): (cell: Row -> Cell)
    ensures forall r :: cell(r) == Str(RelText(r, relCols))
  {
    r => Str(RelText(r, relCols))
  }

  /** GRAU_PARENTESCO over the REL_* flags other than REL_TRAB and REL_CAT, or 'Não informado'. */
  function RelStage(f: Frame): Frame {
    var relCols := ComprehensiveDicts.RelColumns(f.columns);
    if relCols != [] then MapColumn(f, "GRAU_PARENTESCO", RelCell(relCols))
    else FillColumn(f, "GRAU_PARENTESCO", Str(NOT_INFORMED))
  }

  // ---------------------------------------------------------------------
  // The whole of create_derived_columns

  /** Dates, year and report delay. */
  function DatedFrame(parse: string -> Option<Stamp>, f: Frame): Frame {
    DelayStage(YearStage(DatesStage(parse, f)))
  }

  const DATED_COLUMNS: set<string> :=
    {"DT_NOTIFIC", "DT_OCOR", "DT_ENCERRA", "DT_DIGITA", "DT_INVEST", "ANO_NOTIFIC", DELAY_COLUMN}

  /** Justice referrals, state and municipality names. */
  function PlacedFrame(names: map<string, string>, f: Frame): Frame {
    ComprehensiveDerived.MunicipioStage(names, UfStage(EncStage(f)))
  }

  const PLACED_COLUMNS: set<string> := {ENC_COLUMN, "UF_NOTIFIC", "MUNICIPIO_NOTIFIC"}

  /** Violence type, age group, victim and aggressor sex and relationship. */
  function ClassifiedFrame(f: Frame): Frame {
    RelStage(AutorSexoStage(SexStage(FaixaStage(TipoStage(f)))))
  }

  const CLASSIFIED_COLUMNS: set<string> :=
    {"TIPO_VIOLENCIA", "FAIXA_ETARIA", "SEXO", "AUTOR_SEXO_CORRIGIDO", "GRAU_PARENTESCO"}

  /** create_derived_columns: every stage in the order the dashboard assigns them. */
  function DerivedColumns(parse: string -> Option<Stamp>, names: map<string, string>, f: Frame): Frame {
    ClassifiedFrame(PlacedFrame(names, DatedFrame(parse, f)))
  }

  /** Every column create_derived_columns may assign. */
  const DERIVED_COLUMNS: set<string> := DATED_COLUMNS + PLACED_COLUMNS + CLASSIFIED_COLUMNS

  /** The columns create_derived_columns always leaves in the frame. */
  const ALWAYS_DERIVED: set<string> := {"ANO_NOTIFIC"} + PLACED_COLUMNS + CLASSIFIED_COLUMNS

  /** Dates, year and delay as create_derived_columns assigns them to df. */
  method AddDates(parse: string -> Option<Stamp>, data: Frame) returns (df: Frame)
    ensures df == DatedFrame(parse, data)
  {
    df := ProcessDates(parse, data);
    if "DT_NOTIFIC" in df.columns {
      df := ApplyRows(df, "ANO_NOTIFIC", r => ComprehensiveDerived.YearOf(Get(r, "DT_NOTIFIC")));
    } else if "NU_ANO" in df.columns {
      df := ApplyRows(df, "ANO_NOTIFIC", r => ComprehensiveDerived.ToNumeric(Get(r, "NU_ANO")));
    } else {
      df := FillColumn(df, "ANO_NOTIFIC", Null);
    }
    df := AddReportDelay(df);
  }

  /** Referrals row by row, then state and municipality. */
  method AddPlaces(names: map<string, string>, data: Frame) returns (df: Frame)
    ensures df == PlacedFrame(names, data)
  {
    if exists c :: c in ENC_COLUMNS && c in data.columns {
      df := ApplyRows(data, ENC_COLUMN, EncCell);
    } else {
      df := FillColumn(data, ENC_COLUMN, Str(NOT_INFORMED));
    }
    df := UfStage(df);
    df := ComprehensiveDerived.MunicipioStage(names, df);
  }

  /** Violence type row by row, age group, sexes, and relationship row by row. */
  method AddClassification(data: Frame) returns (df: Frame)
    ensures df == ClassifiedFrame(data)
  {
    df := ApplyRows(data, "TIPO_VIOLENCIA", TipoCell);
    df := FaixaStage(df);
    df := SexStage(df);
    df := AutorSexoStage(df);
    var relCols := ComprehensiveDicts.RelColumns(df.columns);
    if relCols != [] {
      df := ApplyRows(df, "GRAU_PARENTESCO", RelCell(relCols));
    } else {
      df := FillColumn(df, "GRAU_PARENTESCO", Str(NOT_INFORMED));
    }
  }

  /** create_derived_columns: the stages assigned to df one after the other. */
  method CreateDerivedColumns(parse: string -> Option<Stamp>, names: map<string, string>, data: Frame)
    returns (df: Frame)
    ensures df == DerivedColumns(parse, names, data)
  {
    df := AddDates(parse, data);
    df := AddPlaces(names, df);
    df := AddClassification(df);
  }

  // ---------------------------------------------------------------------
  // What each stage leaves alone

  lemma {:induction false} CleanColumnsDerives(parse: string -> Option<Stamp>, f: Frame, cols: seq<string>)
    ensures Derives(f, CleanColumns(parse, f, cols), set c | c in cols)
  {
    if cols == [] {
      DerivesRefl(f, {});
    } else {
      var init := cols[..|cols| - 1];
      var last := cols[|cols| - 1];
      var g := CleanColumns(parse, f, init);
      CleanColumnsDerives(parse, f, init);
      if last in g.columns {
        MapColumnDerives(g, last, r => CleanDateAsWritten(parse, Get(r, last)));
      } else {
        DerivesRefl(g, {last});
      }
      DerivesTrans(f, g, CleanColumns(parse, f, cols), set c | c in init, {last});
      assert (set c | c in init) + {last} == set c | c in cols;
    }
  }

  lemma YearStageDerives(f: Frame)
    ensures Derives(f, YearStage(f), {"ANO_NOTIFIC"})
  {
    if "DT_NOTIFIC" in f.columns {
      MapColumnDerives(f, "ANO_NOTIFIC", r => ComprehensiveDerived.YearOf(Get(r, "DT_NOTIFIC")));
    } else if "NU_ANO" in f.columns {
      MapColumnDerives(f, "ANO_NOTIFIC", r => ComprehensiveDerived.ToNumeric(Get(r, "NU_ANO")));
    } else {
      MapColumnDerives(f, "ANO_NOTIFIC", _ => Null);
    }
  }

  lemma DelayStageDerives(f: Frame)
    ensures Derives(f, DelayStage(f), {DELAY_COLUMN})
  {
    if "DT_OCOR" in f.columns && "DT_NOTIFIC" in f.columns {
      DelayStageIsPerRow(f);
      MapColumnDerives(f, DELAY_COLUMN, DelayCell);
    } else {
      DerivesRefl(f, {DELAY_COLUMN});
    }
  }

  /** Dates, year and delay write only their own seven columns. */
  lemma DatedFrameDerives(parse: string -> Option<Stamp>, f: Frame)
    ensures Derives(f, DatedFrame(parse, f), DATED_COLUMNS)
  {
    var f1 := DatesStage(parse, f);
    var f2 := YearStage(f1);
    CleanColumnsDerives(parse, f, DATE_COLUMNS);
    YearStageDerives(f1);
    DelayStageDerives(f2);
    var dates := set c | c in DATE_COLUMNS;
    DerivesTrans(f, f1, f2, dates, {"ANO_NOTIFIC"});
    DerivesTrans(f, f2, DatedFrame(parse, f), dates + {"ANO_NOTIFIC"}, {DELAY_COLUMN});
    assert dates + {"ANO_NOTIFIC"} + {DELAY_COLUMN} == DATED_COLUMNS;
  }

  lemma EncStageDerives(f: Frame)
    ensures Derives(f, EncStage(f), {ENC_COLUMN})
  {
    if exists c :: c in ENC_COLUMNS && c in f.columns {
      MapColumnDerives(f, ENC_COLUMN, EncCell);
    } else {
      MapColumnDerives(f, ENC_COLUMN, _ => Str(NOT_INFORMED));
    }
  }

  lemma UfStageDerives(f: Frame)
    ensures Derives(f, UfStage(f), {"UF_NOTIFIC"})
  {
    if "SG_UF_NOT" in f.columns {
      MapColumnDerives(f, "UF_NOTIFIC", r => Str(MapUf(Get(r, "SG_UF_NOT"))));
    } else if "SG_UF" in f.columns {
      MapColumnDerives(f, "UF_NOTIFIC", r => Str(MapUf(Get(r, "SG_UF"))));
    } else {
      MapColumnDerives(f, "UF_NOTIFIC", _ => Str("N/A"));
    }
  }

  /** Referrals and state write only their own two columns. */
  lemma ReferredStatedDerives(f: Frame)
    ensures Derives(f, UfStage(EncStage(f)), {ENC_COLUMN, "UF_NOTIFIC"})
  {
    var g := EncStage(f);
    EncStageDerives(f);
    UfStageDerives(g);
    DerivesTrans(f, g, UfStage(g), {ENC_COLUMN}, {"UF_NOTIFIC"});
    assert {ENC_COLUMN} + {"UF_NOTIFIC"} == {ENC_COLUMN, "UF_NOTIFIC"};
  }

  /** Referrals, state and municipality write only their own three columns. */
  lemma PlacedFrameDerives(names: map<string, string>, f: Frame)
    ensures Derives(f, PlacedFrame(names, f), PLACED_COLUMNS)
  {
    var f2 := UfStage(EncStage(f));
    var w := {ENC_COLUMN, "UF_NOTIFIC"};
    ReferredStatedDerives(f);
    ComprehensiveDerived.MunicipioStageDerives(names, f2);
    DerivesTrans(f, f2, PlacedFrame(names, f), w, {"MUNICIPIO_NOTIFIC"});
    assert w + {"MUNICIPIO_NOTIFIC"} == PLACED_COLUMNS;
  }

  lemma FaixaStageDerives(f: Frame)
    ensures Derives(f, FaixaStage(f), {"FAIXA_ETARIA"})
  {
    if "NU_IDADE_N" in f.columns {
      MapColumnDerives(f, "FAIXA_ETARIA", r => Str(AgeGroup(Get(r, "NU_IDADE_N"))));
    } else {
      MapColumnDerives(f, "FAIXA_ETARIA", _ => Str(NOT_INFORMED));
    }
  }

  lemma SexStageDerives(f: Frame)
    ensures Derives(f, SexStage(f), {"SEXO"})
  {
    if "CS_SEXO" in f.columns {
      MapColumnDerives(f, "SEXO", r => Str(MapSexo(Get(r, "CS_SEXO"))));
    } else {
      MapColumnDerives(f, "SEXO", _ => Str(NOT_INFORMED));
    }
  }

  lemma AutorSexoStageDerives(f: Frame)
    ensures Derives(f, AutorSexoStage(f), {"AUTOR_SEXO_CORRIGIDO"})
  {
    if "AUTOR_SEXO" in f.columns {
      MapColumnDerives(f, "AUTOR_SEXO_CORRIGIDO", r => Str(MapAutorSexo(Get(r, "AUTOR_SEXO"))));
    } else {
      MapColumnDerives(f, "AUTOR_SEXO_CORRIGIDO", _ => Str(NOT_INFORMED));
    }
  }

  lemma RelStageDerives(f: Frame)
    ensures Derives(f, RelStage(f), {"GRAU_PARENTESCO"})
  {
    var relCols := ComprehensiveDicts.RelColumns(f.columns);
    if relCols != [] {
      MapColumnDerives(f, "GRAU_PARENTESCO", RelCell(relCols));
    } else {
      MapColumnDerives(f, "GRAU_PARENTESCO", _ => Str(NOT_INFORMED));
    }
  }

  /** Violence type and age group write only their own two columns. */
  lemma TypedAgedDerives(f: Frame)
    ensures Derives(f, FaixaStage(TipoStage(f)), {"TIPO_VIOLENCIA", "FAIXA_ETARIA"})
  {
    MapColumnDerives(f, "TIPO_VIOLENCIA", TipoCell);
    FaixaStageDerives(TipoStage(f));
    DerivesTrans(f, TipoStage(f), FaixaStage(TipoStage(f)), {"TIPO_VIOLENCIA"}, {"FAIXA_ETARIA"});
  }

  /** The two sexes write only their own two columns. */
  lemma SexesDerive(f: Frame)
    ensures Derives(f, AutorSexoStage(SexStage(f)), {"SEXO", "AUTOR_SEXO_CORRIGIDO"})
  {
    SexStageDerives(f);
    AutorSexoStageDerives(SexStage(f));
    DerivesTrans(f, SexStage(f), AutorSexoStage(SexStage(f)), {"SEXO"}, {"AUTOR_SEXO_CORRIGIDO"});
  }

  /** The five classifications write only their own five columns. */
  lemma ClassifiedFrameDerives(f: Frame)
    ensures Derives(f, ClassifiedFrame(f), CLASSIFIED_COLUMNS)
  {
    var f2 := FaixaStage(TipoStage(f));
    var f4 := AutorSexoStage(SexStage(f2));
    var w1, w2 := {"TIPO_VIOLENCIA", "FAIXA_ETARIA"}, {"SEXO", "AUTOR_SEXO_CORRIGIDO"};
    TypedAgedDerives(f);
    SexesDerive(f2);
    RelStageDerives(f4);
    DerivesTrans(f, f2, f4, w1, w2);
    DerivesTrans(f, f4, ClassifiedFrame(f), w1 + w2, {"GRAU_PARENTESCO"});
    assert w1 + w2 + {"GRAU_PARENTESCO"} == CLASSIFIED_COLUMNS;
  }

  /**
   * create_derived_columns keeps every row and every source column, adds no
   * column beyond the derived ones, leaves every other cell as it was, and
   * keeps a well-formed frame well-formed.
   */
  lemma DerivedColumnsDerives(parse: string -> Option<Stamp>, names: map<string, string>, f: Frame)
    ensures Derives(f, DerivedColumns(parse, names, f), DERIVED_COLUMNS)
  {
    var dated := DatedFrame(parse, f);
    var placed := PlacedFrame(names, dated);
    DatedFrameDerives(parse, f);
    PlacedFrameDerives(names, dated);
    ClassifiedFrameDerives(placed);
    DerivesTrans(f, dated, placed, DATED_COLUMNS, PLACED_COLUMNS);
    DerivesTrans(f, placed, DerivedColumns(parse, names, f), DATED_COLUMNS + PLACED_COLUMNS, CLASSIFIED_COLUMNS);
  }

  /** The year, the referrals, the places and the five classifications are always there afterwards. */
  lemma DerivedColumnsPresent(parse: string -> Option<Stamp>, names: map<string, string>, f: Frame)
    ensures forall c :: c in ALWAYS_DERIVED ==> c in DerivedColumns(parse, names, f).columns
  {
    var f1 := YearStage(DatesStage(parse, f));
    var dated := DatedFrame(parse, f);
    var placed := PlacedFrame(names, dated);
    assert "ANO_NOTIFIC" in f1.columns;
    DelayStageDerives(f1);
    assert "ANO_NOTIFIC" in dated.columns;
    PlacedColumnsPresent(names, dated);
    ClassifiedFrameDerives(placed);
    ClassifiedColumnsPresent(placed);
  }

  lemma PlacedColumnsPresent(names: map<string, string>, f: Frame)
    ensures forall c :: c in f.columns || c in PLACED_COLUMNS ==> c in PlacedFrame(names, f).columns
  {
    var f1 := EncStage(f);
    var f2 := UfStage(f1);
    assert ENC_COLUMN in f1.columns;
    assert "UF_NOTIFIC" in f2.columns;
  }

  lemma ClassifiedColumnsPresent(f: Frame)
    ensures forall c :: c in CLASSIFIED_COLUMNS ==> c in ClassifiedFrame(f).columns
  {
    var f1 := TipoStage(f);
    var f2 := FaixaStage(f1);
    var f3 := SexStage(f2);
    var f4 := AutorSexoStage(f3);
    assert "TIPO_VIOLENCIA" in f1.columns;
    assert "FAIXA_ETARIA" in f2.columns;
    assert "SEXO" in f3.columns;
    assert "AUTOR_SEXO_CORRIGIDO" in f4.columns;
  }
}
