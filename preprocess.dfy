/**
 * scripts/preprocess_data.py: the offline run that loads the comprehensive
 * violence data once, decodes it, keeps the child and adolescent rows,
 * derives the dashboard's columns and hands the result to the writer.
 */
module Preprocess {
  import opened Text
  import opened Frames
  import ComprehensiveDicts
  import ComprehensiveFilter
  import ComprehensiveDerived
  import DuckdbProcessor

  const AGE_COLUMN: string := "NU_IDADE_N"
  const NOT_INFORMED: string := "Não informado"

  // ---------------------------------------------------------------------
  // The age filter

  /** pandas can compare a value with an integer only when it is a number or missing. */
  predicate Comparable(v: Cell) {
    v.Null? || v.Num?
  }

  /** (NU_IDADE_N >= 0) & (NU_IDADE_N < 18) | NU_IDADE_N.isna() for one value. */
  predicate UnderEighteenOrMissing(v: Cell) {
    v.Null? || (v.Num? && 0 <= v.n < 18)
  }

  predicate UnderEighteenOrMissingRow(r: Row) {
    UnderEighteenOrMissing(Get(r, AGE_COLUMN))
  }

  /**
   * The age mask as written: it compares the decoded column with integers.
   * None stands for the TypeError pandas raises when some value is neither
   * a number nor missing.
   */
  function AgeMaskAsWritten(f: Frame): Option<Frame> {
    if AGE_COLUMN !in f.columns then Some(f)
    else if exists i :: 0 <= i < |f.rows| && !Comparable(Get(f.rows[i], AGE_COLUMN)) then None
    else Some(Filter(f, UnderEighteenOrMissingRow))
  }

  /**
   * Decoding turns every NU_IDADE_N value into text, so on any decoded data
   * with that column and at least one row the mask as written raises.
   */
  lemma AgeMaskFailsOnDecoded(f: Frame)
    requires WellFormed(f) && AGE_COLUMN in f.columns && |f.rows| > 0
    ensures AgeMaskAsWritten(ComprehensiveDicts.DecodeFrame(ComprehensiveDicts.LoadedDictionaries(), f)).None?
  {
    DecodedAgeColumn(f, 0);
    AsWrittenFailsAt(ComprehensiveDicts.DecodeFrame(ComprehensiveDicts.LoadedDictionaries(), f), 0);
  }

  /** One text age is enough for the mask as written to raise. */
  lemma AsWrittenFailsAt(g: Frame, i: nat)
    requires AGE_COLUMN in g.columns && i < |g.rows| && Get(g.rows[i], AGE_COLUMN).Str?
    ensures AgeMaskAsWritten(g).None?
  {
    assert !Comparable(Get(g.rows[i], AGE_COLUMN));
  }

  /** Decoding keeps NU_IDADE_N and maps each of its values through the age dictionary. */
  lemma DecodedAgeColumn(f: Frame, i: nat)
    requires WellFormed(f) && AGE_COLUMN in f.columns && i < |f.rows|
    ensures var g := ComprehensiveDicts.DecodeFrame(ComprehensiveDicts.LoadedDictionaries(), f);
            && g.columns == f.columns && |g.rows| == |f.rows|
            && Get(g.rows[i], AGE_COLUMN) == ComprehensiveDicts.DecodeCell(ComprehensiveDicts.AgeDictionary(), Get(f.rows[i], AGE_COLUMN))
  {
    ComprehensiveDicts.AgeColumnLoaded();
    ComprehensiveDicts.DecodeFrameMapped(ComprehensiveDicts.LoadedDictionaries(), f, AGE_COLUMN, i);
  }

  /**
   * A decoded missing age: pandas' NaN, or the text astype(str) makes of a
   * missing value, 'nan' in a numeric column and 'None' in a text one.
   */
  predicate DecodedMissing(v: Cell) {
    v.Null? || v == Str("nan") || v == Str("None")
  }

  /** The intended test on a decoded age: one of the 18 child age labels, or missing. */
  predicate KeepsDecodedAge(r: Row) {
    ComprehensiveFilter.IsChildAge(r) || DecodedMissing(Get(r, AGE_COLUMN))
  }

  /** The age filter on decoded data: rows aged 0 to 17 years or without an age. */
  function AgeMask(f: Frame): Frame {
    if AGE_COLUMN !in f.columns then f else Filter(f, KeepsDecodedAge)
  }

  /** The filter keeps the columns and exactly the qualifying rows, in their order. */
  lemma AgeMaskKeeps(f: Frame)
    ensures AgeMask(f).columns == f.columns
    ensures IsSubsequence(AgeMask(f).rows, f.rows)
    ensures forall r :: r in AgeMask(f).rows <==> r in f.rows && (AGE_COLUMN in f.columns ==> KeepsDecodedAge(r))
  {
    if AGE_COLUMN !in f.columns {
      IsSubsequenceRefl(f.rows);
    }
  }

  /**
   * In terms of the raw value: a decoded row is kept exactly when its raw
   * NU_IDADE_N is missing, one of the 18 year codes 4000..4017, already a
   * child age label, or one of the texts 'nan' and 'None'.
   */
  lemma KeepsDecodedRawAge(r: Row, raw: Cell)
    requires Get(r, AGE_COLUMN) == ComprehensiveDicts.DecodeCell(ComprehensiveDicts.AgeDictionary(), raw)
    ensures KeepsDecodedAge(r) <==>
              || raw.Null?
              || CellText(raw) in ComprehensiveDicts.AgeDictionary()
              || CellText(raw) in ComprehensiveDicts.CHILD_AGES
              || CellText(raw) == "nan"
              || CellText(raw) == "None"
  {
    var t := CellText(raw);
    if t in ComprehensiveDicts.AgeDictionary() {
      AgeLabelIsChildAge(t);
    }
  }

  /** Every label of the age dictionary is one of the child age labels. */
  lemma AgeLabelIsChildAge(t: string)
    requires t in ComprehensiveDicts.AgeDictionary()
    ensures ComprehensiveDicts.AgeDictionary()[t] in ComprehensiveDicts.CHILD_AGES
  {
    ComprehensiveDicts.AgeDictionaryShape();
    var i :| 0 <= i < 18 && t == ComprehensiveDicts.AgeCode(i);
    ComprehensiveDicts.AgeLabelsAreChildAges();
    assert ComprehensiveDicts.AgeDictionary()[t] == ComprehensiveDicts.CHILD_AGES[i];
  }

  /** The code of every age in years below 18, decoded, passes the filter; so does a missing age. */
  lemma ChildCodesPassAgeMask(r: Row, i: nat)
    requires i < 18
    requires Get(r, AGE_COLUMN) == ComprehensiveDicts.DecodeCell(ComprehensiveDicts.AgeDictionary(), Str(ComprehensiveDicts.AgeCode(i)))
    ensures KeepsDecodedAge(r)
  {
    ComprehensiveDicts.AgeDictionaryShape();
    KeepsDecodedRawAge(r, Str(ComprehensiveDicts.AgeCode(i)));
  }

  // ---------------------------------------------------------------------
  // The age group

  /** The age bands of get_age_group on a whole number of years. */
  function AgeGroupOfYears(n: int): string {
    if n < 2 then "0-1 anos"
    else if n < 6 then "2-5 anos"
    else if n < 10 then "6-9 anos"
    else if n < 14 then "10-13 anos"
    else if n < 18 then "14-17 anos"
    else "18+ anos"
  }

  /** Each band holds exactly its range of years. */
  lemma AgeGroupOfYearsBands(n: int)
    ensures AgeGroupOfYears(n) == "0-1 anos" <==> n < 2
    ensures AgeGroupOfYears(n) == "2-5 anos" <==> 2 <= n < 6
    ensures AgeGroupOfYears(n) == "6-9 anos" <==> 6 <= n < 10
    ensures AgeGroupOfYears(n) == "10-13 anos" <==> 10 <= n < 14
    ensures AgeGroupOfYears(n) == "14-17 anos" <==> 14 <= n < 18
    ensures AgeGroupOfYears(n) == "18+ anos" <==> 18 <= n
  {
    var g := AgeGroupOfYears(n);
    assert "0-1 anos"[0] == '0' && "2-5 anos"[0] == '2' && "6-9 anos"[0] == '6';
    assert "10-13 anos"[1] == '0' && "14-17 anos"[1] == '4' && "18+ anos"[1] == '8';
  }

  /** get_age_group as written: a value that is not a number counts as age 0. */
  function AgeGroupAsWritten(v: Cell): string {
    if v.Null? then NOT_INFORMED
    else AgeGroupOfYears(if v.Num? then v.n else 0)
  }

  /**
   * On decoded data every value is text, missing ones included, so every
   * row lands in the youngest band: age 15 decodes to '15 anos' and is
   * grouped as '0-1 anos'.
   */
  lemma AgeGroupAsWrittenOnDecoded(v: Cell)
    ensures AgeGroupAsWritten(ComprehensiveDicts.DecodeCell(ComprehensiveDicts.AgeDictionary(), v)) == "0-1 anos"
    ensures AgeGroupAsWritten(ComprehensiveDicts.DecodeCell(ComprehensiveDicts.AgeDictionary(), Str(ComprehensiveDicts.AgeCode(15)))) == "0-1 anos"
    ensures AgeGroupOfYears(15) == "14-17 anos"
  {
  }

  /**
   * The band the pipeline uses on decoded ages, the processor's own
   * map_idade_to_faixa: each decoded year code lands in the band of its age
   * in years, and a decoded missing age is not informed.
   */
  lemma FaixaOfDecodedAge(i: nat)
    requires i < 18
    ensures ComprehensiveFilter.AgeBand(ComprehensiveDicts.DecodeCell(ComprehensiveDicts.AgeDictionary(), Str(ComprehensiveDicts.AgeCode(i))))
            == AgeGroupOfYears(i)
  {
    ComprehensiveDicts.DecodeAgeCode(i);
    ComprehensiveFilter.AgeBandOfDecodedAge(i);
    BandIsAgeGroup(i);
  }

  /** Below eighteen the banding of both copies agrees. */
  lemma BandIsAgeGroup(i: nat)
    requires i < 18
    ensures ComprehensiveFilter.BandOfYears(i) == AgeGroupOfYears(i)
  {
  }

  /**
   * A missing age decodes to the text 'nan' or 'None', which the band
   * function reports as not informed.
   */
  lemma FaixaOfDecodedMissing(v: Cell)
    requires DecodedMissing(v)
    ensures ComprehensiveFilter.AgeBand(ComprehensiveDicts.DecodeCell(ComprehensiveDicts.AgeDictionary(), v)) == NOT_INFORMED
  {
    var t := CellText(v);
    MissingIsNotACode(t);
    assert ComprehensiveDicts.DecodeCell(ComprehensiveDicts.AgeDictionary(), v) == Str(t);
    MissingIsNotAnAgeLabel(t);
  }

  lemma MissingIsNotAnAgeLabel(t: string)
    requires t == "nan" || t == "None"
    ensures ComprehensiveFilter.AgeBand(Str(t)) == NOT_INFORMED
  {
    ComprehensiveFilter.AgeBandIsListed(Str(t));
    assert Strip(t) == t by {
      StripOfStripped(t);
    }
    MissingNotUnderSixLabel(t);
    MissingNotOlderLabel(t);
  }

  lemma MissingNotUnderSixLabel(t: string)
    requires t == "nan" || t == "None"
    ensures t !in ComprehensiveFilter.UNDER_ONE_LABELS && t !in ComprehensiveFilter.ONE_LABELS
    ensures t !in ComprehensiveFilter.TWO_TO_FIVE_LABELS
  {
  }

  lemma MissingNotOlderLabel(t: string)
    requires t == "nan" || t == "None"
    ensures t !in ComprehensiveFilter.SIX_TO_NINE_LABELS
    ensures t !in ComprehensiveFilter.TEN_TO_THIRTEEN_LABELS && t !in ComprehensiveFilter.FOURTEEN_TO_SEVENTEEN_LABELS
  {
  }

  lemma MissingIsNotACode(t: string)
    requires t == "nan" || t == "None"
    ensures t !in ComprehensiveDicts.AgeDictionary()
  {
    ComprehensiveDicts.AgeDictionaryShape();
    forall i | 0 <= i < 18
      ensures ComprehensiveDicts.AgeCode(i) != t
    {
      assert ComprehensiveDicts.AgeCode(i)[0] == '4';
    }
  }

  /** FAIXA_ETARIA from the decoded NU_IDADE_N. */
  function FaixaCell(r: Row): Cell {
    Str(ComprehensiveFilter.AgeBand(Get(r, AGE_COLUMN)))
  }

  function FaixaStage(f: Frame): Frame {
    if AGE_COLUMN in f.columns then MapColumn(f, "FAIXA_ETARIA", FaixaCell) else f
  }

  /** FAIXA_ETARIA by get_age_group as written. */
  function FaixaCellAsWritten(r: Row): Cell {
    Str(AgeGroupAsWritten(Get(r, AGE_COLUMN)))
  }

  function FaixaStageAsWritten(f: Frame): Frame {
    if AGE_COLUMN in f.columns then MapColumn(f, "FAIXA_ETARIA", FaixaCellAsWritten) else f
  }

  // ---------------------------------------------------------------------
  // The violence type from the REL_ columns

  /** The test of get_violence_type: present, and '1' or 'Sim' once stripped. */
  predicate RelMarked(v: Cell) {
    !v.Null? && Strip(CellText(v)) in ["1", "Sim"]
  }

  /** The label of a REL_ column: prefix dropped, underscores as spaces, title case. */
  function RelKind(c: string): string {
    Title(Replace(Replace(c, "REL_", ""), "_", " "))
  }

  /** The labels of the marked columns among cols, in column order. */
  function RelKinds(r: Row, cols: seq<string>): (kinds: seq<string>)
    ensures |kinds| <= |cols|
    ensures forall k :: k in kinds ==> exists c :: c in cols && RelMarked(Get(r, c)) && k == RelKind(c)
    ensures forall c :: c in cols && RelMarked(Get(r, c)) ==> RelKind(c) in kinds
  {
    if cols == [] then []
    else
      var c := cols[|cols| - 1];
      var init := cols[..|cols| - 1];
      assert cols == init + [c];
      RelKinds(r, init) + (if RelMarked(Get(r, c)) then [RelKind(c)] else [])
  }

  /** What get_violence_type returns. */
  function ViolenceTypeText(r: Row, relCols: seq<string>): string {
    JoinOr(RelKinds(r, relCols), NOT_INFORMED)
  }

  /** get_violence_type: the loop over the REL_ columns. */
  method GetViolenceType(row: Row, relCols: seq<string>) returns (text: string)
    ensures text == ViolenceTypeText(row, relCols)
  {
    var tipos: seq<string> := [];
    for k := 0 to |relCols|
      invariant tipos == RelKinds(row, relCols[..k])
    {
      var col := relCols[k];
      assert relCols[..k + 1][..k] == relCols[..k];
      var v := Get(row, col);
      if !v.Null? && Strip(CellText(v)) in ["1", "Sim"] {
        tipos := tipos + [Title(Replace(Replace(col, "REL_", ""), "_", " "))];
      }
    }
    assert relCols[..|relCols|] == relCols;
    if tipos != [] {
      text := Join(", ", tipos);
    } else {
      text := NOT_INFORMED;
    }
  }

  /** The text is not informed when no column is marked, and lists the marked ones otherwise. */
  lemma ViolenceTypeCases(r: Row, relCols: seq<string>)
    ensures (forall c :: c in relCols ==> !RelMarked(Get(r, c))) ==> ViolenceTypeText(r, relCols) == NOT_INFORMED
    ensures (exists c :: c in relCols && RelMarked(Get(r, c))) ==>
              RelKinds(r, relCols) != [] && ViolenceTypeText(r, relCols) == Join(", ", RelKinds(r, relCols))
  {
    var kinds := RelKinds(r, relCols);
    if kinds != [] {
      assert kinds[0] in kinds;
    }
  }

  /** Without a '_' in the rest of its name, a column REL_x is labelled x in title case. */
  lemma RelKindOfPlainName(s: string)
    requires '_' !in s
    ensures RelKind("REL_" + s) == Title(s)
  {
    NoUnderscoreNoMatch(s, "REL_");
    NoUnderscoreNoMatch(s, "_");
    ReplaceAbsent(s, "REL_", "");
    ReplaceAbsent(s, "_", " ");
    var t := "REL_" + s;
    assert "REL_" <= t && t[|"REL_"|..] == s;
    assert Replace(t, "REL_", "") == "" + Replace(s, "REL_", "");
    assert Replace(t, "REL_", "") == s;
  }

  /** A text without '_' contains no pattern that holds one. */
  lemma {:induction false} NoUnderscoreNoMatch(s: string, p: string)
    requires '_' !in s && '_' in p
    ensures !Contains(s, p)
    decreases |s|
  {
    if s != [] {
      NoUnderscoreNoMatch(s[1..], p);
    }
  }

  function TipoCell(relCols: seq<string>): Row -> Cell {
    r => Str(ViolenceTypeText(r, relCols))
  }

  /** TIPO_VIOLENCIA, built from the REL_ columns only when absent and some REL_ column exists. */
  function TipoStage(f: Frame): Frame {
    if "TIPO_VIOLENCIA" in f.columns then f
    else
      var relCols := DuckdbProcessor.RelColumns(f.columns);
      if relCols == [] then f else MapColumn(f, "TIPO_VIOLENCIA", TipoCell(relCols))
  }

  method AddViolenceType(data: Frame) returns (result: Frame)
    ensures result == TipoStage(data)
  {
    result := data;
    if "TIPO_VIOLENCIA" !in data.columns {
      var relCols := DuckdbProcessor.RelColumns(data.columns);
      if relCols != [] {
        result := ApplyRows(data, "TIPO_VIOLENCIA", TipoCell(relCols));
      }
    }
  }

  // ---------------------------------------------------------------------
  // Dates

  const DATE_COLUMNS: seq<string> := ["DT_NOTIFIC", "DT_OCOR", "DT_ENCERRA"]

  /** pd.to_datetime(errors='coerce') on one column, when it exists. */
  function ParseColumn(parse: string -> Option<Stamp>, f: Frame, c: string): Frame {
    if c in f.columns then MapColumn(f, c, r => ComprehensiveDerived.ToDatetime(parse, Get(r, c))) else f
  }

  /** The date columns among cols converted, in their order. */
  function ParseColumns(parse: string -> Option<Stamp>, f: Frame, cols: seq<string>): Frame {
    if cols == [] then f
    else ParseColumn(parse, ParseColumns(parse, f, cols[..|cols| - 1]), cols[|cols| - 1])
  }

  function DatesStage(parse: string -> Option<Stamp>, f: Frame): Frame {
    ParseColumns(parse, f, DATE_COLUMNS)
  }

  /** The loop over the date columns. */
  method ParseDates(parse: string -> Option<Stamp>, data: Frame) returns (result: Frame)
    ensures result == DatesStage(parse, data)
  {
    result := data;
    for k := 0 to |DATE_COLUMNS|
      invariant result == ParseColumns(parse, data, DATE_COLUMNS[..k])
    {
      var col := DATE_COLUMNS[k];
      assert DATE_COLUMNS[..k + 1][..k] == DATE_COLUMNS[..k];
      if col in result.columns {
        result := ApplyRows(result, col, r => ComprehensiveDerived.ToDatetime(parse, Get(r, col)));
      }
    }
    assert DATE_COLUMNS[..|DATE_COLUMNS|] == DATE_COLUMNS;
  }

  /**
   * Converting the date columns keeps the columns and the row count, and
   * leaves every converted column holding only timestamps and missing values.
   */
  lemma {:induction false} ParseColumnsCells(parse: string -> Option<Stamp>, f: Frame, cols: seq<string>)
    ensures ParseColumns(parse, f, cols).columns == f.columns
    ensures |ParseColumns(parse, f, cols).rows| == |f.rows|
    ensures forall i, c :: 0 <= i < |f.rows| && c in cols && c in f.columns ==>
              var v := Get(ParseColumns(parse, f, cols).rows[i], c); v.Null? || v.Date?
    ensures forall i, c :: 0 <= i < |f.rows| && c !in cols ==>
              Get(ParseColumns(parse, f, cols).rows[i], c) == Get(f.rows[i], c)
  {
    if cols != [] {
      var init := cols[..|cols| - 1];
      var last := cols[|cols| - 1];
      ParseColumnsCells(parse, f, init);
      var g := ParseColumns(parse, f, init);
      assert forall c :: c in cols <==> c in init || c == last;
      if last in g.columns {
        assert AddName(g.columns, last) == g.columns;
      }
    }
  }

  // ---------------------------------------------------------------------
  // Report delay

  const DELAY_COLUMN: string := "TEMPO_OCOR_DENUNCIA"

  /** mask_validas: both dates present. */
  predicate BothDated(r: Row) {
    !Get(r, "DT_NOTIFIC").Null? && !Get(r, "DT_OCOR").Null?
  }

  /** The delay of a row with both dates; any other row keeps what it had, missing if nothing. */
  function DelayCell(r: Row): Cell {
    if BothDated(r) then ComprehensiveDerived.ReportDelay(Get(r, "DT_NOTIFIC"), Get(r, "DT_OCOR"))
    else Get(r, DELAY_COLUMN)
  }

  /** The delay is written only when both date columns exist and some row has both dates. */
  function DelayStage(f: Frame): Frame {
    if "DT_OCOR" in f.columns && "DT_NOTIFIC" in f.columns && exists i :: 0 <= i < |f.rows| && BothDated(f.rows[i]) then
      MapColumn(f, DELAY_COLUMN, DelayCell)
    else f
  }

  method AddReportDelay(data: Frame) returns (result: Frame)
    ensures result == DelayStage(data)
  {
    result := data;
    if "DT_OCOR" in data.columns && "DT_NOTIFIC" in data.columns {
      var any := false;
      for i := 0 to |data.rows|
        invariant any <==> exists j :: 0 <= j < i && BothDated(data.rows[j])
      {
        if BothDated(data.rows[i]) {
          any := true;
        }
      }
      if any {
        result := ApplyRows(data, DELAY_COLUMN, DelayCell);
      }
    }
  }

  /**
   * After the stage, a row with both dates holds a whole number of days in
   * [0, 3650] or nothing (a number exactly when both are timestamps that far
   * apart), and every other row keeps its old delay.
   */
  lemma DelayStageCells(f: Frame, i: nat)
    requires WellFormed(f) && i < |f.rows|
    ensures |DelayStage(f).rows| == |f.rows|
    ensures var r := f.rows[i]; var v := Get(DelayStage(f).rows[i], DELAY_COLUMN);
            && (BothDated(r) ==> (v.Null? || (v.Num? && 0 <= v.n <= ComprehensiveDerived.MAX_DELAY_DAYS)))
            && (BothDated(r) && v.Num? ==>
                  Get(r, "DT_NOTIFIC").Date? && Get(r, "DT_OCOR").Date? &&
                  v.n == Get(r, "DT_NOTIFIC").t.day - Get(r, "DT_OCOR").t.day)
            && (!BothDated(r) ==> v == Get(r, DELAY_COLUMN))
  {
    var r := f.rows[i];
    if BothDated(r) {
      assert "DT_OCOR" in r && "DT_NOTIFIC" in r;
      assert "DT_OCOR" in f.columns && "DT_NOTIFIC" in f.columns;
    }
    if DelayStage(f) != f {
      assert DelayStage(f).rows[i] == r[DELAY_COLUMN := DelayCell(r)];
    }
  }

  // ---------------------------------------------------------------------
  // Justice referrals

  const ENC_COLUMNS: seq<string> := ["ENC_DELEG", "ENC_DPCA", "ENC_MPU", "ENC_VARA"]
  const ENC_COLUMN: string := "ENCAMINHAMENTOS_JUSTICA"
  const NO_REFERRAL: string := "Nenhum"

  /** The label of a referral column in this script. */
  function EncName(c: string): string {
    if c == "ENC_DELEG" then "Delegacia"
    else if c == "ENC_DPCA" then "DPCA"
    else if c == "ENC_MPU" then "Ministério Público"
    else if c == "ENC_VARA" then "Vara da Infância"
    else ""
  }

  /** The referral test: present, and '1' once stripped or the number 1. */
  predicate Referred(v: Cell) {
    !v.Null? && (Strip(CellText(v)) == "1" || v == Num(1))
  }

  /** The referral test of one row, as a test on column names. */
  function ReferredIn(r: Row): (referred: string -> bool)
    ensures forall c :: referred(c) == Referred(Get(r, c))
  {
    c => Referred(Get(r, c))
  }

  /** The labels of the referral columns among cols that hold a referral, in order. */
  function EncLabels(referred: string -> bool, cols: seq<string>): (labels: seq<string>)
    ensures |labels| <= |cols|
    ensures forall l :: l in labels ==> exists c :: c in cols && referred(c) && l == EncName(c)
    ensures forall c :: c in cols && referred(c) ==> EncName(c) in labels
  {
    if cols == [] then []
    else
      var c := cols[|cols| - 1];
      var init := cols[..|cols| - 1];
      assert cols == init + [c];
      EncLabels(referred, init) + (if referred(c) then [EncName(c)] else [])
  }

  /** One more column adds its label when it holds a referral. */
  lemma EncLabelsSnoc(referred: string -> bool, cols: seq<string>, k: nat)
    requires k < |cols|
    ensures EncLabels(referred, cols[..k + 1])
      == EncLabels(referred, cols[..k]) + (if referred(cols[k]) then [EncName(cols[k])] else [])
  {
    assert cols[..k + 1][..k] == cols[..k];
  }

  /** What get_encaminhamentos_justica returns. */
  function EncText(r: Row): string {
    JoinOr(EncLabels(ReferredIn(r), ENC_COLUMNS), NO_REFERRAL)
  }

  /** get_encaminhamentos_justica: the loop over the four referral columns. */
  method GetEncaminhamentos(row: Row) returns (text: string)
    ensures text == EncText(row)
  {
    var encs: seq<string> := [];
    for k := 0 to |ENC_COLUMNS|
      invariant encs == EncLabels(ReferredIn(row), ENC_COLUMNS[..k])
    {
      var col := ENC_COLUMNS[k];
      EncLabelsSnoc(ReferredIn(row), ENC_COLUMNS, k);
      var val := Get(row, col);
      if !val.Null? && (Strip(CellText(val)) == "1" || val == Num(1)) {
        if col == "ENC_DELEG" { encs := encs + ["Delegacia"]; }
        else if col == "ENC_DPCA" { encs := encs + ["DPCA"]; }
        else if col == "ENC_MPU" { encs := encs + ["Ministério Público"]; }
        else if col == "ENC_VARA" { encs := encs + ["Vara da Infância"]; }
      }
    }
    assert ENC_COLUMNS[..|ENC_COLUMNS|] == ENC_COLUMNS;
    if encs != [] {
      text := Join(", ", encs);
    } else {
      text := NO_REFERRAL;
    }
  }

  /**
   * The referral text is never empty and never 'Não informado', and it is
   * 'Nenhum' exactly when none of the four columns holds a referral.
   */
  lemma EncTextCases(r: Row)
    ensures EncText(r) != "" && EncText(r) != NOT_INFORMED
    ensures EncText(r) == NO_REFERRAL <==> forall c :: c in ENC_COLUMNS ==> !Referred(Get(r, c))
  {
    var labels := EncLabels(ReferredIn(r), ENC_COLUMNS);
    if labels != [] {
      assert labels[0] in labels;
      var c :| c in ENC_COLUMNS && labels[0] == EncName(c);
      EncNameOpens(c);
      JoinHead(", ", labels);
      assert NO_REFERRAL[0] == 'N' && NOT_INFORMED[0] == 'N';
    } else {
      assert NOT_INFORMED[1] != NO_REFERRAL[1];
    }
  }

  /** Every referral label is non-empty and opens with a letter other than N. */
  lemma EncNameOpens(c: string)
    requires c in ENC_COLUMNS
    ensures EncName(c) != "" && EncName(c)[0] != 'N'
  {
  }

  function EncCell(r: Row): Cell {
    Str(EncText(r))
  }

  /** The referral column: computed when some referral column exists, otherwise 'Não informado' everywhere. */
  function EncStage(f: Frame): Frame {
    if exists c :: c in ENC_COLUMNS && c in f.columns then MapColumn(f, ENC_COLUMN, EncCell)
    else FillColumn(f, ENC_COLUMN, Str(NOT_INFORMED))
  }

  method AddReferrals(data: Frame) returns (result: Frame)
    ensures result == EncStage(data)
  {
    var any := false;
    for k := 0 to |ENC_COLUMNS|
      invariant any <==> exists j :: 0 <= j < k && ENC_COLUMNS[j] in data.columns
    {
      if ENC_COLUMNS[k] in data.columns {
        any := true;
      }
    }
    assert any <==> exists c :: c in ENC_COLUMNS && c in data.columns;
    if any {
      result := ApplyRows(data, ENC_COLUMN, EncCell);
    } else {
      result := MapColumn(data, ENC_COLUMN, _ => Str(NOT_INFORMED));
    }
  }

  /** Every row holds a referral text; it is 'Não informado' exactly when no referral column exists. */
  lemma EncStageCells(f: Frame, i: nat)
    requires i < |f.rows|
    ensures ENC_COLUMN in EncStage(f).columns && |EncStage(f).rows| == |f.rows|
    ensures var v := Get(EncStage(f).rows[i], ENC_COLUMN);
            && v.Str? && v.s != ""
            && (v.s == NOT_INFORMED <==> forall c :: c in ENC_COLUMNS ==> c !in f.columns)
  {
    EncTextCases(f.rows[i]);
  }

  // ---------------------------------------------------------------------
  // The run

  /**
   * The outcome of the steps after loading, as written: None when the age
   * mask raises, which the handler turns into False, otherwise the data the
   * run hands to the writer.
   */
  function PreprocessedAsWritten(parse: string -> Option<Stamp>, violenceData: Frame): Option<Frame> {
    var decoded := ComprehensiveDicts.DecodeFrame(ComprehensiveDicts.LoadedDictionaries(), violenceData);
    var masked := AgeMaskAsWritten(decoded);
    if masked.None? then None
    else Some(EncStage(DelayStage(DatesStage(parse, TipoStage(FaixaStageAsWritten(masked.value))))))
  }

  /** The data the run would hand to the writer with the corrected age filter and age bands. */
  function Preprocessed(parse: string -> Option<Stamp>, violenceData: Frame): Frame {
    var decoded := ComprehensiveDicts.DecodeFrame(ComprehensiveDicts.LoadedDictionaries(), violenceData);
    EncStage(DelayStage(DatesStage(parse, TipoStage(FaixaStage(AgeMask(decoded))))))
  }

  /**
   * preprocess_data up to the writer, as written: it fails without the raw
   * directory, without a Parquet file, without data, and when the age mask
   * raises; otherwise it decodes, filters by age and derives the columns.
   * File listing, loading and writing are the parameters and the result.
   */
  method PreprocessData(rawDirExists: bool, parquetFiles: seq<string>, violenceData: Option<Frame>,
                        parse: string -> Option<Stamp>)
    returns (success: bool, processed: Option<Frame>)
    ensures success <==> && rawDirExists && parquetFiles != [] && violenceData.Some? && |violenceData.value.rows| > 0
                         && PreprocessedAsWritten(parse, violenceData.value).Some?
    ensures success ==> processed == PreprocessedAsWritten(parse, violenceData.value)
    ensures !success ==> processed.None?
  {
    if !rawDirExists || parquetFiles == [] {
      return false, None;
    }
    if violenceData.None? || |violenceData.value.rows| == 0 {
      return false, None;
    }
    var data := ComprehensiveDicts.DecodeFrame(ComprehensiveDicts.LoadedDictionaries(), violenceData.value);
    var masked := AgeMaskAsWritten(data);
    if masked.None? {
      return false, None;
    }
    data := masked.value;
    if AGE_COLUMN in data.columns {
      data := ApplyRows(data, "FAIXA_ETARIA", FaixaCellAsWritten);
    }
    data := AddViolenceType(data);
    data := ParseDates(parse, data);
    data := AddReportDelay(data);
    data := AddReferrals(data);
    return true, Some(data);
  }

  /** On data with an age column and a row the run as written always fails. */
  lemma PreprocessFailsWithAges(parse: string -> Option<Stamp>, violenceData: Frame)
    requires WellFormed(violenceData) && AGE_COLUMN in violenceData.columns && |violenceData.rows| > 0
    ensures PreprocessedAsWritten(parse, violenceData).None?
  {
    AgeMaskFailsOnDecoded(violenceData);
  }

  /** Without an age column the run as written and the corrected run hand over the same data. */
  lemma PreprocessWithoutAges(parse: string -> Option<Stamp>, violenceData: Frame)
    requires WellFormed(violenceData) && AGE_COLUMN !in violenceData.columns
    ensures PreprocessedAsWritten(parse, violenceData) == Some(Preprocessed(parse, violenceData))
  {
    ComprehensiveDicts.DecodeFrameShape(ComprehensiveDicts.LoadedDictionaries(), violenceData);
  }

  /**
   * The corrected run keeps exactly the rows the corrected age filter keeps,
   * and every one of them carries a referral text.
   */
  lemma PreprocessedRows(parse: string -> Option<Stamp>, violenceData: Frame)
    ensures var decoded := ComprehensiveDicts.DecodeFrame(ComprehensiveDicts.LoadedDictionaries(), violenceData);
            |Preprocessed(parse, violenceData).rows| == |AgeMask(decoded).rows|
    ensures ENC_COLUMN in Preprocessed(parse, violenceData).columns
    ensures forall i :: 0 <= i < |Preprocessed(parse, violenceData).rows| ==>
              Get(Preprocessed(parse, violenceData).rows[i], ENC_COLUMN).Str?
  {
    StagesKeepMasked(parse, ComprehensiveDicts.DecodeFrame(ComprehensiveDicts.LoadedDictionaries(), violenceData));
  }

  /** The stages after the age filter keep its rows and give each a referral text. */
  lemma StagesKeepMasked(parse: string -> Option<Stamp>, decoded: Frame)
    ensures var out := EncStage(DelayStage(DatesStage(parse, TipoStage(FaixaStage(AgeMask(decoded))))));
            && |out.rows| == |AgeMask(decoded).rows|
            && ENC_COLUMN in out.columns
            && forall i :: 0 <= i < |out.rows| ==> Get(out.rows[i], ENC_COLUMN).Str?
  {
    var masked := AgeMask(decoded);
    var typed := TipoStage(FaixaStage(masked));
    assert |typed.rows| == |masked.rows|;
    ParseColumnsCells(parse, typed, DATE_COLUMNS);
    var delayed := DelayStage(DatesStage(parse, typed));
    assert |delayed.rows| == |typed.rows|;
    forall i | 0 <= i < |delayed.rows|
      ensures Get(EncStage(delayed).rows[i], ENC_COLUMN).Str?
    {
      EncStageCells(delayed, i);
    }
    assert ENC_COLUMN in AddName(delayed.columns, ENC_COLUMN);
  }
}
