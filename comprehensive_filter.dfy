/**
 * The population filter and the age-band column of the comprehensive
 * processor: filter_comprehensive_violence and create_faixa_etaria.
 * Neither reads nor writes the processor's dictionaries, so both are
 * module-level members here.
 */
module ComprehensiveFilter {
  import opened Text
  import opened Frames
  import opened ComprehensiveDicts

  // ---------------------------------------------------------------------
  // filter_comprehensive_violence

  const VIOLENCE_COLUMNS: seq<string> := ["VIOL_SEXU", "VIOL_FISIC", "VIOL_PSICO", "VIOL_INFAN"]

  /** The texts read as "yes" in a VIOL_* column; this copy accepts lower-case "sim". */
  const VIOLENCE_VALUES: seq<string> := ["1", "Sim", "SIM", "S", "sim", "1.0"]

  /** The per-column test: str(v) is an affirmative text, or v is the number 1. */
  predicate IsViolent(v: Cell) {
    CellText(v) in VIOLENCE_VALUES || v == Num(1)
  }

  /** Some of the given columns holds an affirmative value in the row. */
  predicate AnyViolent(r: Row, cols: seq<string>) {
    exists c :: c in cols && IsViolent(Get(r, c))
  }

  /** The row test of the combined condition over the available columns. */
  function ViolentIn(available: seq<string>): (p: Row -> bool)
    ensures forall r :: p(r) == AnyViolent(r, available)
  {
    r => AnyViolent(r, available)
  }

  /** The age whitelist test: the decoded NU_IDADE_N text is one of the 18 child ages. */
  predicate IsChildAge(r: Row) {
    var v := Get(r, "NU_IDADE_N");
    v.Str? && v.s in CHILD_AGES
  }

  /** The age stage: skipped when asked, and a pass-through without NU_IDADE_N. */
  function AgeStage(f: Frame, alreadyFilteredByAge: bool): Frame {
    if alreadyFilteredByAge || "NU_IDADE_N" !in f.columns then f else Filter(f, IsChildAge)
  }

  /** The violence stage: rows with an affirmative value in a present VIOL_* column. */
  function ViolenceStage(f: Frame): Frame {
    var available := Present(VIOLENCE_COLUMNS, f.columns);
    if available == [] then f else Filter(f, ViolentIn(available))
  }

  /** What filter_comprehensive_violence returns. */
  function ComprehensiveFilter(f: Frame, alreadyFilteredByAge: bool): Frame {
    ViolenceStage(AgeStage(f, alreadyFilteredByAge))
  }

  /** The reported share of kept rows; no share is computed for an empty input. */
  function KeptPercentage(original: nat, filtered: nat): Option<real> {
    if original > 0 then Some(filtered as real / original as real * 100.0) else None
  }

  /** The mask col_str.isin(values), or-ed with the numeric test, of one column. */
  function ViolenceMask(rows: seq<Row>, col: string): (mask: seq<bool>)
    ensures |mask| == |rows| && forall i :: 0 <= i < |rows| ==> mask[i] == IsViolent(Get(rows[i], col))
  {
    seq(|rows|, i requires 0 <= i < |rows| => IsViolent(Get(rows[i], col)))
  }

  lemma AnyViolentSnoc(r: Row, cols: seq<string>, k: nat)
    requires k < |cols|
    ensures AnyViolent(r, cols[..k + 1]) == (AnyViolent(r, cols[..k]) || IsViolent(Get(r, cols[k])))
  {
    assert cols[..k + 1] == cols[..k] + [cols[k]];
  }

  /** The loop building violence_conditions: one mask per available column. */
  method ViolenceConditions(rows: seq<Row>, available: seq<string>) returns (conditions: seq<seq<bool>>)
    ensures |conditions| == |available|
    ensures forall j :: 0 <= j < |available| ==> conditions[j] == ViolenceMask(rows, available[j])
  {
    conditions := [];
    for k := 0 to |available|
      invariant |conditions| == k
      invariant forall j :: 0 <= j < k ==> conditions[j] == ViolenceMask(rows, available[j])
    {
      conditions := conditions + [ViolenceMask(rows, available[k])];
    }
  }

  /** The loop or-ing the masks: a row is marked when some available column is affirmative. */
  method CombineConditions(rows: seq<Row>, available: seq<string>, conditions: seq<seq<bool>>)
    returns (combined: seq<bool>)
    requires available != [] && |conditions| == |available|
    requires forall j :: 0 <= j < |available| ==> conditions[j] == ViolenceMask(rows, available[j])
    ensures |combined| == |rows|
    ensures forall i :: 0 <= i < |rows| ==> combined[i] == AnyViolent(rows[i], available)
  {
    combined := conditions[0];
    assert available[..1] == [available[0]];
    for k := 1 to |conditions|
      invariant |combined| == |rows|
      invariant forall i :: 0 <= i < |rows| ==> combined[i] == AnyViolent(rows[i], available[..k])
    {
      var condition := conditions[k];
      forall i | 0 <= i < |rows| {
        AnyViolentSnoc(rows[i], available, k);
      }
      combined := seq(|combined|, i requires 0 <= i < |combined| => combined[i] || condition[i]);
    }
    assert available[..|available|] == available;
  }

  /** The violence stage as the source runs it: masks per column, or-ed, then selected. */
  method KeepViolentRows(childData: Frame) returns (violenceData: Frame)
    ensures violenceData == ViolenceStage(childData)
  {
    var available := Present(VIOLENCE_COLUMNS, childData.columns);
    if available != [] {
      var conditions := ViolenceConditions(childData.rows, available);
      var combined := CombineConditions(childData.rows, available, conditions);
      SelectWhere(childData.rows, combined, ViolentIn(available));
      violenceData := Frame(childData.columns, Select(childData.rows, combined));
    } else {
      violenceData := childData;
    }
  }

  /**
   * Keeps the child rows (unless already filtered), then the rows with some
   * affirmative VIOL_* value, and reports the kept share.
   */
  method FilterComprehensiveViolence(data: Frame, alreadyFilteredByAge: bool)
    returns (violenceData: Frame, percentage: Option<real>)
    ensures violenceData == ComprehensiveFilter(data, alreadyFilteredByAge)
    ensures percentage == KeptPercentage(|data.rows|, |violenceData.rows|)
  {
    var originalCount := |data.rows|;
    var childData: Frame;
    if alreadyFilteredByAge {
      childData := data;
    } else if "NU_IDADE_N" in data.columns {
      childData := Filter(data, IsChildAge);
    } else {
      childData := data;
    }
    violenceData := KeepViolentRows(childData);
    var filteredCount := |violenceData.rows|;
    if originalCount > 0 {
      percentage := Some(filteredCount as real / originalCount as real * 100.0);
    } else {
      percentage := None;
    }
  }

  /** The filter only removes rows and keeps the rest in their order. */
  lemma FilterIsSubsequence(f: Frame, alreadyFilteredByAge: bool)
    ensures ComprehensiveFilter(f, alreadyFilteredByAge).columns == f.columns
    ensures IsSubsequence(ComprehensiveFilter(f, alreadyFilteredByAge).rows, f.rows)
  {
    var a := AgeStage(f, alreadyFilteredByAge);
    var g := ComprehensiveFilter(f, alreadyFilteredByAge);
    IsSubsequenceRefl(f.rows);
    IsSubsequenceRefl(a.rows);
    IsSubsequenceTrans(g.rows, a.rows, f.rows);
  }

  /**
   * A row is kept exactly when it passes the age whitelist (unless that stage
   * is skipped) and has an affirmative value in some present VIOL_* column
   * (unless there is none).
   */
  lemma FilterKeeps(f: Frame, alreadyFilteredByAge: bool, r: Row)
    ensures r in ComprehensiveFilter(f, alreadyFilteredByAge).rows <==>
              && r in f.rows
              && (alreadyFilteredByAge || "NU_IDADE_N" !in f.columns || IsChildAge(r))
              && (Present(VIOLENCE_COLUMNS, f.columns) == [] || exists c :: c in VIOLENCE_COLUMNS && c in f.columns && IsViolent(Get(r, c)))
  {
    var available := Present(VIOLENCE_COLUMNS, f.columns);
    assert AnyViolent(r, available) <==> exists c :: c in VIOLENCE_COLUMNS && c in f.columns && IsViolent(Get(r, c));
  }

  /** Without any VIOL_* column the violence stage returns its input unchanged. */
  lemma NoViolenceColumnsPassThrough(f: Frame, alreadyFilteredByAge: bool)
    requires forall c :: c in VIOLENCE_COLUMNS ==> c !in f.columns
    ensures ComprehensiveFilter(f, alreadyFilteredByAge) == AgeStage(f, alreadyFilteredByAge)
  {
    var a := AgeStage(f, alreadyFilteredByAge);
    assert Present(VIOLENCE_COLUMNS, a.columns) == [] by {
      if Present(VIOLENCE_COLUMNS, a.columns) != [] {
        assert Present(VIOLENCE_COLUMNS, a.columns)[0] in Present(VIOLENCE_COLUMNS, a.columns);
      }
    }
  }

  /** A percentage is reported exactly for a non-empty input, and it lies in [0, 100]. */
  lemma PercentageBounds(original: nat, filtered: nat)
    requires filtered <= original
    ensures KeptPercentage(original, filtered).None? <==> original == 0
    ensures KeptPercentage(original, filtered).Some? ==>
              0.0 <= KeptPercentage(original, filtered).value <= 100.0
  {
    if original > 0 {
      var q := filtered as real / original as real;
      assert q * original as real == filtered as real;
      assert q <= 1.0;
    }
  }

  /** The kept share of a filter run is a percentage. */
  lemma FilterPercentage(f: Frame, alreadyFilteredByAge: bool)
    ensures var g := ComprehensiveFilter(f, alreadyFilteredByAge);
            |g.rows| <= |f.rows| &&
            (KeptPercentage(|f.rows|, |g.rows|).Some? ==> KeptPercentage(|f.rows|, |g.rows|).value <= 100.0)
  {
    var g := ComprehensiveFilter(f, alreadyFilteredByAge);
    PercentageBounds(|f.rows|, |g.rows|);
  }

  // ---------------------------------------------------------------------
  // create_faixa_etaria

  const NOT_INFORMED: string := "Não informado"

  const UNDER_ONE_LABELS: seq<string> := ["menor de 01 ano", "menor de 1 ano"]
  const ONE_LABELS: seq<string> := ["01 ano", "1 ano"]
  const TWO_TO_FIVE_LABELS: seq<string> := ["02 anos", "03 anos", "04 anos", "05 anos", "2 anos", "3 anos", "4 anos", "5 anos"]
  const SIX_TO_NINE_LABELS: seq<string> := ["06 anos", "07 anos", "08 anos", "09 anos", "6 anos", "7 anos", "8 anos", "9 anos"]
  const TEN_TO_THIRTEEN_LABELS: seq<string> := ["10 anos", "11 anos", "12 anos", "13 anos"]
  const FOURTEEN_TO_SEVENTEEN_LABELS: seq<string> := ["14 anos", "15 anos", "16 anos", "17 anos"]

  /** s starts with f'{i:02d} anos' or with f'{i} anos'. */
  predicate OpensWithAge(s: string, i: nat) {
    StartsWith(s, ZeroPad(i, 2) + " anos") || StartsWith(s, NatToDecimal(i) + " anos")
  }

  /** The first i in [lo, hi) whose age text opens s. */
  function FirstAgeNumber(s: string, lo: nat, hi: nat): (r: Option<nat>)
    ensures r.Some? ==> lo <= r.value < hi && OpensWithAge(s, r.value)
    ensures r.Some? ==> forall j :: lo <= j < r.value ==> !OpensWithAge(s, j)
    ensures r.None? ==> forall j :: lo <= j < hi ==> !OpensWithAge(s, j)
    decreases hi - lo
  {
    if lo >= hi then None
    else if OpensWithAge(s, lo) then Some(lo)
    else FirstAgeNumber(s, lo + 1, hi)
  }

  /** The search loop of one band: for i in range(lo, hi), stopping at the first match. */
  method FindAgeNumber(s: string, lo: nat, hi: nat) returns (ageNumber: Option<nat>)
    ensures ageNumber == FirstAgeNumber(s, lo, hi)
  {
    ageNumber := None;
    var i := lo;
    while i < hi
      invariant lo <= i <= hi || (hi < lo && i == lo)
      invariant FirstAgeNumber(s, lo, hi) == FirstAgeNumber(s, i, hi)
      decreases hi - i
    {
      if OpensWithAge(s, i) {
        ageNumber := Some(i);
        return;
      }
      i := i + 1;
    }
  }

  /** One band branch: the number found must lie in the band, else the text is not informed. */
  function BandOf(s: string, lo: nat, hi: nat, bandName: string): string {
    var n := FirstAgeNumber(s, lo, hi);
    if n.None? then NOT_INFORMED
    else if lo <= n.value < hi then bandName
    else NOT_INFORMED
  }

  /** map_idade_to_faixa. */
  function AgeBand(v: Cell): string {
    if v.Null? || v == Str("") then NOT_INFORMED
    else
      var s := Strip(CellText(v));
      if s in UNDER_ONE_LABELS then "0-1 anos"
      else if s in ONE_LABELS then "0-1 anos"
      else if s in TWO_TO_FIVE_LABELS then BandOf(s, 2, 6, "2-5 anos")
      else if s in SIX_TO_NINE_LABELS then BandOf(s, 6, 10, "6-9 anos")
      else if s in TEN_TO_THIRTEEN_LABELS then BandOf(s, 10, 14, "10-13 anos")
      else if s in FOURTEEN_TO_SEVENTEEN_LABELS then BandOf(s, 14, 18, "14-17 anos")
      else NOT_INFORMED
  }

  /** map_idade_to_faixa with its search loops. */
  method MapIdadeToFaixa(v: Cell) returns (band: string)
    ensures band == AgeBand(v)
  {
    if v.Null? || v == Str("") {
      return NOT_INFORMED;
    }
    var s := Strip(CellText(v));
    var lo: nat, hi: nat, bandName: string;
    if s in UNDER_ONE_LABELS {
      return "0-1 anos";
    } else if s in ONE_LABELS {
      return "0-1 anos";
    } else if s in TWO_TO_FIVE_LABELS {
      lo, hi, bandName := 2, 6, "2-5 anos";
    } else if s in SIX_TO_NINE_LABELS {
      lo, hi, bandName := 6, 10, "6-9 anos";
    } else if s in TEN_TO_THIRTEEN_LABELS {
      lo, hi, bandName := 10, 14, "10-13 anos";
    } else if s in FOURTEEN_TO_SEVENTEEN_LABELS {
      lo, hi, bandName := 14, 18, "14-17 anos";
    } else {
      return NOT_INFORMED;
    }
    var ageNumber := FindAgeNumber(s, lo, hi);
    if ageNumber.None? {
      return NOT_INFORMED;
    }
    if lo <= ageNumber.value < hi {
      return bandName;
    }
    return NOT_INFORMED;
  }

  /** The band table without the search: the listed strings and their bands. */
  function ListedBand(s: string): string {
    if s in UNDER_ONE_LABELS || s in ONE_LABELS then "0-1 anos"
    else if s in TWO_TO_FIVE_LABELS then "2-5 anos"
    else if s in SIX_TO_NINE_LABELS then "6-9 anos"
    else if s in TEN_TO_THIRTEEN_LABELS then "10-13 anos"
    else if s in FOURTEEN_TO_SEVENTEEN_LABELS then "14-17 anos"
    else NOT_INFORMED
  }

  lemma BandOfFound(s: string, lo: nat, hi: nat, bandName: string, j: nat)
    requires lo <= j < hi && OpensWithAge(s, j)
    ensures BandOf(s, lo, hi, bandName) == bandName
  {
  }

  lemma OpensWithOwnAge(i: nat, s: string)
    requires s == ZeroPad(i, 2) + " anos" || s == NatToDecimal(i) + " anos"
    ensures OpensWithAge(s, i)
  {
  }

  lemma TwoToFiveFound(s: string)
    requires s in TWO_TO_FIVE_LABELS
    ensures BandOf(s, 2, 6, "2-5 anos") == "2-5 anos"
  {
    var k :| 0 <= k < |TWO_TO_FIVE_LABELS| && TWO_TO_FIVE_LABELS[k] == s;
    var i := 2 + k % 4;
    if k < 4 {
      assert s == ZeroPad(i, 2) + " anos";
    } else {
      assert s == NatToDecimal(i) + " anos";
    }
    OpensWithOwnAge(i, s);
    BandOfFound(s, 2, 6, "2-5 anos", i);
  }

  lemma SixToNineFound(s: string)
    requires s in SIX_TO_NINE_LABELS
    ensures BandOf(s, 6, 10, "6-9 anos") == "6-9 anos"
  {
    var k :| 0 <= k < |SIX_TO_NINE_LABELS| && SIX_TO_NINE_LABELS[k] == s;
    var i := 6 + k % 4;
    if k < 4 {
      assert s == ZeroPad(i, 2) + " anos";
    } else {
      assert s == NatToDecimal(i) + " anos";
    }
    OpensWithOwnAge(i, s);
    BandOfFound(s, 6, 10, "6-9 anos", i);
  }

  lemma TenToThirteenFound(s: string)
    requires s in TEN_TO_THIRTEEN_LABELS
    ensures BandOf(s, 10, 14, "10-13 anos") == "10-13 anos"
  {
    var k :| 0 <= k < |TEN_TO_THIRTEEN_LABELS| && TEN_TO_THIRTEEN_LABELS[k] == s;
    assert s == NatToDecimal(10 + k) + " anos";
    OpensWithOwnAge(10 + k, s);
    BandOfFound(s, 10, 14, "10-13 anos", 10 + k);
  }

  lemma FourteenToSeventeenFound(s: string)
    requires s in FOURTEEN_TO_SEVENTEEN_LABELS
    ensures BandOf(s, 14, 18, "14-17 anos") == "14-17 anos"
  {
    var k :| 0 <= k < |FOURTEEN_TO_SEVENTEEN_LABELS| && FOURTEEN_TO_SEVENTEEN_LABELS[k] == s;
    assert s == NatToDecimal(14 + k) + " anos";
    OpensWithOwnAge(14 + k, s);
    BandOfFound(s, 14, 18, "14-17 anos", 14 + k);
  }

  /**
   * The search loops never change the outcome: a listed string always finds
   * its number, so map_idade_to_faixa is the table lookup on the stripped text.
   */
  lemma AgeBandIsListed(v: Cell)
    ensures AgeBand(v) == if v.Null? || v == Str("") then NOT_INFORMED else ListedBand(Strip(CellText(v)))
  {
    if !(v.Null? || v == Str("")) {
      var s := Strip(CellText(v));
      if s in TWO_TO_FIVE_LABELS {
        TwoToFiveFound(s);
      } else if s in SIX_TO_NINE_LABELS {
        SixToNineFound(s);
      } else if s in TEN_TO_THIRTEEN_LABELS {
        TenToThirteenFound(s);
      } else if s in FOURTEEN_TO_SEVENTEEN_LABELS {
        FourteenToSeventeenFound(s);
      }
    }
  }

  /** The band of an age in years. */
  function BandOfYears(i: nat): string {
    if i < 2 then "0-1 anos"
    else if i < 6 then "2-5 anos"
    else if i < 10 then "6-9 anos"
    else if i < 14 then "10-13 anos"
    else if i < 18 then "14-17 anos"
    else NOT_INFORMED
  }

  lemma ListedBandUnderSix(i: nat)
    requires i < 6
    ensures ListedBand(CHILD_AGES[i]) == BandOfYears(i)
  {
    if i == 0 {
      assert CHILD_AGES[0] == UNDER_ONE_LABELS[0];
    } else if i == 1 {
      assert CHILD_AGES[1] == ONE_LABELS[0];
    } else {
      assert CHILD_AGES[i] == TWO_TO_FIVE_LABELS[i - 2];
      assert CHILD_AGES[i] !in UNDER_ONE_LABELS + ONE_LABELS;
    }
  }

  lemma ListedBandSixToNine(i: nat)
    requires 6 <= i < 10
    ensures ListedBand(CHILD_AGES[i]) == BandOfYears(i)
  {
    assert CHILD_AGES[i] == SIX_TO_NINE_LABELS[i - 6];
    assert CHILD_AGES[i] !in UNDER_ONE_LABELS + ONE_LABELS + TWO_TO_FIVE_LABELS;
  }

  lemma ListedBandTenToSeventeen(i: nat)
    requires 10 <= i < 18
    ensures ListedBand(CHILD_AGES[i]) == BandOfYears(i)
  {
    if i < 14 {
      assert CHILD_AGES[i] == TEN_TO_THIRTEEN_LABELS[i - 10];
    } else {
      assert CHILD_AGES[i] == FOURTEEN_TO_SEVENTEEN_LABELS[i - 14];
    }
    assert CHILD_AGES[i] !in UNDER_ONE_LABELS + ONE_LABELS + TWO_TO_FIVE_LABELS + SIX_TO_NINE_LABELS;
  }

  lemma ListedBandOfChildAge(i: nat)
    requires i < 18
    ensures ListedBand(CHILD_AGES[i]) == BandOfYears(i)
  {
    if i < 6 {
      ListedBandUnderSix(i);
    } else if i < 10 {
      ListedBandSixToNine(i);
    } else {
      ListedBandTenToSeventeen(i);
    }
  }

  /**
   * The age labels the decoder produces land in the band of their age:
   * decoding NU_IDADE_N and then banding it is banding the age itself.
   */
  lemma AgeBandOfDecodedAge(i: nat)
    requires i < 18
    ensures AgeBand(Str(AgeLabel(i))) == BandOfYears(i)
  {
    AgeLabelStripped(i);
    AgeLabelIsChildAge(i);
    AgeBandOfStripped(CHILD_AGES[i]);
    ListedBandOfChildAge(i);
  }

  /** A non-empty text without surrounding whitespace is banded by the label lists alone. */
  lemma AgeBandOfStripped(s: string)
    requires IsStripped(s) && s != ""
    ensures AgeBand(Str(s)) == ListedBand(s)
  {
    StripOfStripped(s);
    AgeBandIsListed(Str(s));
  }

  lemma AgeLabelIsChildAge(i: nat)
    requires i < 18
    ensures AgeLabel(i) == CHILD_AGES[i]
  {
    AgeLabelsAreChildAges();
  }

  lemma AgeLabelStripped(i: nat)
    ensures IsStripped(AgeLabel(i))
  {
    if i >= 2 {
      var z := ZeroPad(i, 2);
      assert (z + " anos")[0] == z[0];
    }
  }

  /** Every text maps to one of the five bands or to the not-informed bandName. */
  lemma AgeBandRange(v: Cell)
    ensures AgeBand(v) in ["0-1 anos", "2-5 anos", "6-9 anos", "10-13 anos", "14-17 anos", NOT_INFORMED]
  {
  }

  /** create_faixa_etaria: FAIXA_ETARIA from NU_IDADE_N, or the table unchanged without it. */
  function FaixaEtariaColumn(f: Frame): (g: Frame)
    ensures "NU_IDADE_N" !in f.columns ==> g == f
    ensures "NU_IDADE_N" in f.columns ==>
              g.columns == AddName(f.columns, "FAIXA_ETARIA") && |g.rows| == |f.rows|
    ensures "NU_IDADE_N" in f.columns ==>
              forall i :: 0 <= i < |f.rows| ==>
                g.rows[i] == f.rows[i]["FAIXA_ETARIA" := Str(AgeBand(Get(f.rows[i], "NU_IDADE_N")))]
  {
    if "NU_IDADE_N" !in f.columns then f
    else MapColumn(f, "FAIXA_ETARIA", r => Str(AgeBand(Get(r, "NU_IDADE_N"))))
  }

  /** create_faixa_etaria with the per-row helper applied row by row. */
  method CreateFaixaEtaria(data: Frame) returns (result: Frame)
    ensures result == FaixaEtariaColumn(data)
  {
    if "NU_IDADE_N" !in data.columns {
      return data;
    }
    var rows: seq<Row> := [];
    for i := 0 to |data.rows|
      invariant |rows| == i
      invariant forall j :: 0 <= j < i ==>
                  rows[j] == data.rows[j]["FAIXA_ETARIA" := Str(AgeBand(Get(data.rows[j], "NU_IDADE_N")))]
    {
      var band := MapIdadeToFaixa(Get(data.rows[i], "NU_IDADE_N"));
      rows := rows + [data.rows[i]["FAIXA_ETARIA" := Str(band)]];
    }
    result := Frame(AddName(data.columns, "FAIXA_ETARIA"), rows);
  }

  /** Every FAIXA_ETARIA of the new column is the band of the row's NU_IDADE_N. */
  lemma FaixaEtariaBands(f: Frame, i: nat)
    requires "NU_IDADE_N" in f.columns && i < |f.rows|
    ensures Get(FaixaEtariaColumn(f).rows[i], "FAIXA_ETARIA") ==
              Str(if IsNa(Get(f.rows[i], "NU_IDADE_N")) || Get(f.rows[i], "NU_IDADE_N") == Str("") then NOT_INFORMED
                  else ListedBand(Strip(CellText(Get(f.rows[i], "NU_IDADE_N")))))
  {
    AgeBandIsListed(Get(f.rows[i], "NU_IDADE_N"));
  }
}
