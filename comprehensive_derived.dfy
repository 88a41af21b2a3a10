/**
 * create_derived_columns of the comprehensive processor: the analytic
 * columns the dashboard reads (year, age band, state and municipality
 * names, violence type, sex labels, report delay, justice referrals and
 * relationship to the aggressor), each derived from the coded columns.
 */
module ComprehensiveDerived {
  import opened Text
  import opened Frames
  import opened ComprehensiveDicts
  import opened ComprehensiveFilter

  // ---------------------------------------------------------------------
  // Dates and year

  /**
   * pd.to_datetime(errors='coerce') on one cell: a timestamp stays, a missing
   * value stays missing, any other value is parsed from its text.
   */
  function ToDatetime(parse: string -> Option<Stamp>, v: Cell): (r: Cell)
    ensures r.Null? || r.Date?
    ensures v.Date? ==> r == v
    ensures v.Null? ==> r.Null?
  {
    if v.Null? || v.Date? then v
    else if parse(CellText(v)).Some? then Date(parse(CellText(v)).value)
    else Null
  }

  /** Converting a converted column changes nothing, so skipping a datetime column is sound. */
  lemma ToDatetimeIdempotent(parse: string -> Option<Stamp>, v: Cell)
    ensures ToDatetime(parse, ToDatetime(parse, v)) == ToDatetime(parse, v)
  {
  }

  /** .dt.year: the year of a timestamp, missing for a missing one. */
  function YearOf(v: Cell): Cell {
    if v.Date? then Num(v.t.year) else Null
  }

  /** int(s) for an optionally signed decimal text, None for anything else. */
  function ParseInteger(s: string): (r: Option<int>)
    ensures IsDigits(s) ==> r == Some(DigitsValue(s))
  {
    if IsDigits(s) then Some(DigitsValue(s))
    else if |s| > 1 && s[0] == '-' && IsDigits(s[1..]) then Some(-(DigitsValue(s[1..]) as int))
    else None
  }

  /** pd.to_numeric(errors='coerce') on one cell of integral texts. */
  function ToNumeric(v: Cell): (r: Cell)
    ensures r.Null? || r.Num?
  {
    if v.Num? then v
    else if v.Str? && ParseInteger(v.s).Some? then Num(ParseInteger(v.s).value)
    else Null
  }

  /** to_numeric reads back what str() of an integer writes. */
  lemma ToNumericOfDecimal(n: int)
    ensures ToNumeric(Str(IntToDecimal(n))) == Num(n)
  {
    if n < 0 {
      var d := NatToDecimal(-n);
      NatToDecimalValue(-n);
      assert ("-" + d)[1..] == d;
      assert !IsDigits("-" + d) by {
        assert !IsDigit(("-" + d)[0]);
      }
    } else {
      NatToDecimalValue(n);
    }
  }

  /** Step 1: DT_NOTIFIC parsed and its year, or NU_ANO as a number, as ANO_NOTIFIC. */
  function DateStage(parse: string -> Option<Stamp>, f: Frame): Frame {
    if "DT_NOTIFIC" in f.columns then
      var g := MapColumn(f, "DT_NOTIFIC", r => ToDatetime(parse, Get(r, "DT_NOTIFIC")));
      MapColumn(g, "ANO_NOTIFIC", r => YearOf(Get(r, "DT_NOTIFIC")))
    else if "NU_ANO" in f.columns then
      MapColumn(f, "ANO_NOTIFIC", r => ToNumeric(Get(r, "NU_ANO")))
    else f
  }

  /** ANO_NOTIFIC is the year of the parsed notification date, or missing. */
  lemma DateStageYear(parse: string -> Option<Stamp>, f: Frame, i: nat)
    requires "DT_NOTIFIC" in f.columns && i < |f.rows|
    ensures var r := DateStage(parse, f).rows[i];
            var d := ToDatetime(parse, Get(f.rows[i], "DT_NOTIFIC"));
            Get(r, "DT_NOTIFIC") == d &&
            (Get(r, "ANO_NOTIFIC") == if d.Date? then Num(d.t.year) else Null)
  {
  }

  // ---------------------------------------------------------------------
  // State names

  /** The IBGE state codes and names of uf_dict. */
  const UF_NAMES: map<string, string> := map[
    "11" := "Rondônia", "12" := "Acre", "13" := "Amazonas", "14" := "Roraima",
    "15" := "Pará", "16" := "Amapá", "17" := "Tocantins", "21" := "Maranhão",
    "22" := "Piauí", "23" := "Ceará", "24" := "Rio Grande do Norte", "25" := "Paraíba",
    "26" := "Pernambuco", "27" := "Alagoas", "28" := "Sergipe", "29" := "Bahia",
    "31" := "Minas Gerais", "32" := "Espírito Santo", "33" := "Rio de Janeiro",
    "35" := "São Paulo", "41" := "Paraná", "42" := "Santa Catarina", "43" := "Rio Grande do Sul",
    "50" := "Mato Grosso do Sul", "51" := "Mato Grosso", "52" := "Goiás", "53" := "Distrito Federal"]

  predicate AllDigits(s: string) {
    forall i :: 0 <= i < |s| ==> IsDigit(s[i])
  }

  /** The characters before the first '.'. */
  function IntegerPart(s: string): (r: string)
    ensures r <= s
  {
    if s == [] || s[0] == '.' then []
    else [s[0]] + IntegerPart(s[1..])
  }

  lemma {:induction false} IntegerPartDigits(s: string)
    requires AllDigits(ReplaceFirst(s, ".", ""))
    ensures AllDigits(IntegerPart(s))
  {
    if s != [] && s[0] != '.' {
      var rest := ReplaceFirst(s[1..], ".", "");
      assert ReplaceFirst(s, ".", "") == [s[0]] + rest;
      assert forall i :: 0 <= i < |rest| ==> rest[i] == ReplaceFirst(s, ".", "")[i + 1];
      IntegerPartDigits(s[1..]);
      assert IntegerPart(s) == [s[0]] + IntegerPart(s[1..]);
      assert IsDigit(ReplaceFirst(s, ".", "")[0]);
    }
  }

  /**
   * str(int(float(s))) for a text that is digits once its first '.' is
   * dropped: the decimal form of the digits before the point.
   */
  function IntegerKey(s: string): string
    requires AllDigits(ReplaceFirst(s, ".", ""))
  {
    IntegerPartDigits(s);
    NatToDecimal(DigitsValue(IntegerPart(s)))
  }

  /**
   * map_uf's lookup over a code table: the name of a code, also for numeric
   * renderings of it, else the stripped text.
   */
  function StateName(names: map<string, string>, v: Cell): string {
    if v.Null? then NOT_INFORMED
    else
      var s := Strip(CellText(v));
      if s in names then names[s]
      else if IsDigits(ReplaceFirst(s, ".", "")) && IntegerKey(s) in names then names[IntegerKey(s)]
      else s
  }

  /** map_uf: StateName over uf_dict. */
  function MapUf(v: Cell): string {
    StateName(UF_NAMES, v)
  }

  /** The codes of UF_NAMES. */
  const UF_CODES: set<string> := {
    "11", "12", "13", "14", "15", "16", "17", "21", "22", "23", "24", "25", "26", "27",
    "28", "29", "31", "32", "33", "35", "41", "42", "43", "50", "51", "52", "53"}

  lemma UfCodesAreKeys()
    ensures UF_NAMES.Keys == UF_CODES
  {
  }

  lemma UfCodesAreTwoDigits()
    ensures forall k :: k in UF_CODES ==> |k| == 2 && '1' <= k[0] <= '5' && '0' <= k[1] <= '9'
  {
  }

  /** Codes of two digits without a leading zero: the decimal form of their value. */
  predicate CanonicalCodes(names: map<string, string>) {
    forall k :: k in names ==> |k| == 2 && IsDigits(k) && k[0] != '0'
  }

  lemma UfCodeIsListed(k: string)
    requires k in UF_NAMES
    ensures k in UF_CODES
  {
    UfCodesAreKeys();
  }

  lemma UfListedCodeIsCanonical(k: string)
    requires k in UF_CODES
    ensures |k| == 2 && IsDigits(k) && k[0] != '0'
  {
    UfCodesAreTwoDigits();
  }

  /** Every state code is two digits without a leading zero. */
  lemma UfCodesAreCanonical()
    ensures CanonicalCodes(UF_NAMES)
  {
    forall k | k in UF_NAMES
      ensures |k| == 2 && IsDigits(k) && k[0] != '0'
    {
      UfCodeIsListed(k);
      UfListedCodeIsCanonical(k);
    }
  }

  lemma {:induction false} LeadingNonZeroPositive(k: string)
    requires IsDigits(k) && k[0] != '0'
    ensures DigitsValue(k) >= 1
  {
    if |k| == 1 {
      assert DigitChar(DigitOf(k[0])) == k[0];
    } else {
      var init := k[..|k| - 1];
      assert init[0] == k[0];
      LeadingNonZeroPositive(init);
    }
  }

  /** A digit string without a leading zero is the decimal form of its value. */
  lemma {:induction false} CanonicalDecimal(k: string)
    requires IsDigits(k) && k[0] != '0'
    ensures NatToDecimal(DigitsValue(k)) == k
  {
    if |k| == 1 {
      assert DigitChar(DigitOf(k[0])) == k[0];
      assert DigitsValue(k) == DigitsValue(k[..0]) * 10 + DigitOf(k[0]);
      assert DigitsValue(k[..0]) == 0;
    } else {
      var init := k[..|k| - 1];
      assert init[0] == k[0];
      LeadingNonZeroPositive(init);
      CanonicalDecimal(init);
      var n := DigitsValue(k);
      assert n == DigitsValue(init) * 10 + DigitOf(k[|k| - 1]);
      assert n / 10 == DigitsValue(init) && n % 10 == DigitOf(k[|k| - 1]);
      assert k == init + [k[|k| - 1]];
    }
  }

  lemma {:induction false} IntegerPartOfPointed(a: string, b: string)
    requires '.' !in a
    ensures IntegerPart(a + "." + b) == a
    ensures ReplaceFirst(a + "." + b, ".", "") == a + b
  {
    IntegerPartBeforePoint(a, b);
    PointRemoved(a, b);
  }

  lemma {:induction false} IntegerPartBeforePoint(a: string, b: string)
    requires '.' !in a
    ensures IntegerPart(a + "." + b) == a
  {
    if a != [] {
      var s := a + "." + b;
      IntegerPartBeforePoint(a[1..], b);
      assert s[0] == a[0] && s[1..] == a[1..] + "." + b;
      assert a == [a[0]] + a[1..];
    }
  }

  lemma {:induction false} PointRemoved(a: string, b: string)
    requires '.' !in a
    ensures ReplaceFirst(a + "." + b, ".", "") == a + b
  {
    var s := a + "." + b;
    if a == [] {
      assert s == "." + b;
      assert "." <= s;
    } else {
      PointRemoved(a[1..], b);
      assert s[0] == a[0] && s[1..] == a[1..] + "." + b;
      assert !("." <= s);
      assert a + b == [a[0]] + (a[1..] + b);
    }
  }

  lemma {:induction false} IntegerPartOfPlain(a: string)
    requires '.' !in a
    ensures IntegerPart(a) == a
    ensures ReplaceFirst(a, ".", "") == a
  {
    if a != [] {
      IntegerPartOfPlain(a[1..]);
      assert a == [a[0]] + a[1..];
    }
  }

  function Zeros(z: nat): (s: string)
    ensures |s| == z && forall i :: 0 <= i < z ==> s[i] == '0'
  {
    seq(z, _ => '0')
  }

  lemma NoSpaceIsStripped(s: string)
    requires forall i :: 0 <= i < |s| ==> !IsSpace(s[i])
    ensures Strip(s) == s
  {
    StripOfStripped(s);
  }

  /** A code with z leading zeros and, when pointed, a fractional part. */
  function PaddedText(k: string, z: nat, frac: string, pointed: bool): string {
    Zeros(z) + k + (if pointed then "." + frac else "")
  }

  /** A code padded with zeros and given a fractional part reads back as the code. */
  lemma PaddedCode(k: string, z: nat, frac: string, pointed: bool)
    requires IsDigits(k) && k[0] != '0' && AllDigits(frac)
    requires !pointed ==> frac == []
    ensures Strip(PaddedText(k, z, frac, pointed)) == PaddedText(k, z, frac, pointed)
    ensures IsDigits(ReplaceFirst(PaddedText(k, z, frac, pointed), ".", ""))
    ensures IntegerKey(PaddedText(k, z, frac, pointed)) == k
    ensures |PaddedText(k, z, frac, pointed)| == |k| ==> PaddedText(k, z, frac, pointed) == k
  {
    var a := Zeros(z) + k;
    var s := PaddedText(k, z, frac, pointed);
    assert AllDigits(a);
    assert s == a + (if pointed then "." + frac else "");
    DigitsNoSpace(a, frac, pointed);
    DigitsParts(a, frac, pointed);
    ZerosValue(z, k);
    CanonicalDecimal(k);
    if |s| == |k| {
      assert z == 0 && !pointed;
    }
  }

  /** Digits with an optional fractional part carry no whitespace to strip. */
  lemma DigitsNoSpace(a: string, frac: string, pointed: bool)
    requires AllDigits(a) && AllDigits(frac)
    ensures var s := a + (if pointed then "." + frac else ""); Strip(s) == s
  {
    var s := a + (if pointed then "." + frac else "");
    forall i | 0 <= i < |s|
      ensures !IsSpace(s[i])
    {
      if i < |a| {
        assert IsDigit(a[i]);
      } else if i > |a| {
        assert s[i] == frac[i - |a| - 1];
      }
    }
    NoSpaceIsStripped(s);
  }

  /** Digits with an optional fractional part: the integer part is the digits before the point. */
  lemma DigitsParts(a: string, frac: string, pointed: bool)
    requires AllDigits(a) && AllDigits(frac)
    requires !pointed ==> frac == []
    ensures var s := a + (if pointed then "." + frac else "");
      IntegerPart(s) == a && ReplaceFirst(s, ".", "") == a + frac && AllDigits(a + frac)
  {
    assert '.' !in a by {
      assert forall i :: 0 <= i < |a| ==> IsDigit(a[i]);
    }
    var s := a + (if pointed then "." + frac else "");
    if pointed {
      IntegerPartOfPointed(a, frac);
      assert s == a + "." + frac;
    } else {
      IntegerPartOfPlain(a);
      assert s == a && a + frac == a;
    }
    assert AllDigits(a + frac);
  }

  /**
   * Over canonical codes, StateName accepts a code with leading zeros and a
   * fractional part.
   */
  lemma StateNameNumericText(names: map<string, string>, k: string, z: nat, frac: string, pointed: bool)
    requires CanonicalCodes(names) && k in names && AllDigits(frac)
    requires !pointed ==> frac == []
    ensures StateName(names, Str(Zeros(z) + k + (if pointed then "." + frac else ""))) == names[k]
  {
    PaddedCode(k, z, frac, pointed);
    assert Zeros(z) + k + (if pointed then "." + frac else "") == PaddedText(k, z, frac, pointed);
  }

  /**
   * map_uf accepts a state code with leading zeros and a fractional part:
   * '035', '35.0' and '0035.25' all name São Paulo.
   */
  lemma MapUfNumericText(k: string, z: nat, frac: string, pointed: bool)
    requires k in UF_NAMES && AllDigits(frac)
    requires !pointed ==> frac == []
    ensures MapUf(Str(Zeros(z) + k + (if pointed then "." + frac else ""))) == UF_NAMES[k]
  {
    UfCodesAreCanonical();
    StateNameNumericText(UF_NAMES, k, z, frac, pointed);
  }

  lemma StateNameNumber(names: map<string, string>, k: string)
    requires CanonicalCodes(names) && k in names
    ensures StateName(names, Num(DigitsValue(k))) == names[k]
  {
    CanonicalDecimal(k);
    assert CellText(Num(DigitsValue(k))) == k;
    NoSpaceIsStripped(k);
  }

  /** The integral number of a state code names the state too. */
  lemma MapUfNumber(k: string)
    requires k in UF_NAMES
    ensures MapUf(Num(DigitsValue(k))) == UF_NAMES[k]
  {
    UfCodesAreCanonical();
    StateNameNumber(UF_NAMES, k);
  }

  /** A text that is neither a code nor a numeric rendering of one comes back stripped. */
  lemma MapUfPassThrough(v: Cell)
    requires !v.Null?
    requires Strip(CellText(v)) !in UF_NAMES
    requires !IsDigits(ReplaceFirst(Strip(CellText(v)), ".", ""))
    ensures MapUf(v) == Strip(CellText(v))
  {
  }

  /** Step 3: UF_NOTIFIC from SG_UF_NOT, else from SG_UF, else 'N/A'. */
  function UfStage(f: Frame): Frame {
    if "SG_UF_NOT" in f.columns then MapColumn(f, "UF_NOTIFIC", r => Str(MapUf(Get(r, "SG_UF_NOT"))))
    else if "SG_UF" in f.columns then MapColumn(f, "UF_NOTIFIC", r => Str(MapUf(Get(r, "SG_UF"))))
    else FillColumn(f, "UF_NOTIFIC", Str("N/A"))
  }

  // ---------------------------------------------------------------------
  // Municipality names

  /** map_municipio: a name only for a six-character code listed in the dictionary. */
  function MapMunicipio(names: map<string, string>, v: Cell): string {
    if v.Null? then NOT_INFORMED
    else
      var c := Strip(CellText(v));
      if |c| == 6 && c in names then names[c] else c
  }

  /** With a dictionary of six-character codes only, the length test never rejects a listed code. */
  lemma MapMunicipioLookup(names: map<string, string>, v: Cell)
    requires forall k :: k in names ==> |k| == 6
    requires !v.Null?
    ensures MapMunicipio(names, v) ==
              if Strip(CellText(v)) in names then names[Strip(CellText(v))] else Strip(CellText(v))
  {
  }

  /** Step 4: MUNICIPIO_NOTIFIC from ID_MUNICIP, else ID_MN_RESI, else 'N/A'. */
  function MunicipioStage(names: map<string, string>, f: Frame): Frame {
    if "ID_MUNICIP" in f.columns then
      MapColumn(f, "MUNICIPIO_NOTIFIC", r => Str(MapMunicipio(names, Get(r, "ID_MUNICIP"))))
    else if "ID_MN_RESI" in f.columns then
      MapColumn(f, "MUNICIPIO_NOTIFIC", r => Str(MapMunicipio(names, Get(r, "ID_MN_RESI"))))
    else FillColumn(f, "MUNICIPIO_NOTIFIC", Str("N/A"))
  }

  // ---------------------------------------------------------------------
  // Violence type

  /** The texts get_violence_type reads as "yes" (no lower-case "sim" here). */
  const TYPE_CHECK: seq<string> := ["Sim", "SIM", "1", "S", "1.0"]

  const TYPE_SENTINEL: string := "Não especificado"

  /** str(row.get(c, '')).strip() is affirmative. */
  predicate IsTypeAffirmative(r: Row, c: string) {
    Strip(CellText(GetOr(r, c, Str("")))) in TYPE_CHECK
  }

  /** The labels of the affirmed kinds, in the order Física, Psicológica, Sexual, Infantil. */
  function KindLabels(fisic: bool, psico: bool, sexu: bool, infan: bool): seq<string> {
    (if fisic then ["Física"] else [])
    + (if psico then ["Psicológica"] else [])
    + (if sexu then ["Sexual"] else [])
    + (if infan then ["Infantil"] else [])
  }

  /** A label is listed exactly when its kind is affirmed. */
  lemma KindLabelsMembership(fisic: bool, psico: bool, sexu: bool, infan: bool)
    ensures "Física" in KindLabels(fisic, psico, sexu, infan) <==> fisic
    ensures "Psicológica" in KindLabels(fisic, psico, sexu, infan) <==> psico
    ensures "Sexual" in KindLabels(fisic, psico, sexu, infan) <==> sexu
    ensures "Infantil" in KindLabels(fisic, psico, sexu, infan) <==> infan
  {
  }

  lemma KindLabelsClean(fisic: bool, psico: bool, sexu: bool, infan: bool)
    ensures forall l :: l in KindLabels(fisic, psico, sexu, infan) ==> l != "" && ',' !in l && IsStripped(l)
  {
    forall l | l in KindLabels(fisic, psico, sexu, infan)
      ensures l != "" && ',' !in l && IsStripped(l)
    {
      KindLabelClean(l);
    }
  }

  lemma KindLabelClean(l: string)
    requires l in ["Física", "Psicológica", "Sexual", "Infantil"]
    ensures l != "" && ',' !in l && IsStripped(l)
  {
  }

  /** The labels of the violence kinds a row affirms. */
  function ViolenceLabels(r: Row): seq<string> {
    KindLabels(IsTypeAffirmative(r, "VIOL_FISIC"), IsTypeAffirmative(r, "VIOL_PSICO"),
               IsTypeAffirmative(r, "VIOL_SEXU"), IsTypeAffirmative(r, "VIOL_INFAN"))
  }

  /** The label of each kind is listed exactly when the row affirms its column. */
  lemma ViolenceLabelsMembership(r: Row)
    ensures "Física" in ViolenceLabels(r) <==> IsTypeAffirmative(r, "VIOL_FISIC")
    ensures "Psicológica" in ViolenceLabels(r) <==> IsTypeAffirmative(r, "VIOL_PSICO")
    ensures "Sexual" in ViolenceLabels(r) <==> IsTypeAffirmative(r, "VIOL_SEXU")
    ensures "Infantil" in ViolenceLabels(r) <==> IsTypeAffirmative(r, "VIOL_INFAN")
  {
    KindLabelsMembership(IsTypeAffirmative(r, "VIOL_FISIC"), IsTypeAffirmative(r, "VIOL_PSICO"),
                         IsTypeAffirmative(r, "VIOL_SEXU"), IsTypeAffirmative(r, "VIOL_INFAN"));
  }

  /** What get_violence_type returns. */
  function ViolenceType(r: Row): string {
    JoinOr(ViolenceLabels(r), TYPE_SENTINEL)
  }

  /** The four tests of get_violence_type, each appending its label when it holds. */
  method AffirmedLabels(fisic: bool, psico: bool, sexu: bool, infan: bool) returns (types: seq<string>)
    ensures types == KindLabels(fisic, psico, sexu, infan)
  {
    types := [];
    if fisic { types := types + ["Física"]; }
    if psico { types := types + ["Psicológica"]; }
    if sexu { types := types + ["Sexual"]; }
    if infan { types := types + ["Infantil"]; }
  }

  /** get_violence_type: the affirmed labels joined, or the sentinel when none holds. */
  method GetViolenceType(row: Row) returns (violenceType: string)
    ensures violenceType == ViolenceType(row)
  {
    var types := AffirmedLabels(IsTypeAffirmative(row, "VIOL_FISIC"), IsTypeAffirmative(row, "VIOL_PSICO"),
                                IsTypeAffirmative(row, "VIOL_SEXU"), IsTypeAffirmative(row, "VIOL_INFAN"));
    if types == [] {
      types := types + [TYPE_SENTINEL];
    }
    violenceType := Join(", ", types);
  }

  /**
   * The joined labels are never empty, split back into the labels, and are
   * the sentinel exactly when no kind is affirmed.
   */
  lemma KindTextRoundTrip(fisic: bool, psico: bool, sexu: bool, infan: bool)
    ensures var labels := KindLabels(fisic, psico, sexu, infan);
            && JoinOr(labels, TYPE_SENTINEL) != ""
            && (labels != [] ==> StripAll(SplitOn(JoinOr(labels, TYPE_SENTINEL), ',')) == labels)
            && (JoinOr(labels, TYPE_SENTINEL) == TYPE_SENTINEL <==> labels == [])
  {
    var labels := KindLabels(fisic, psico, sexu, infan);
    KindLabelsClean(fisic, psico, sexu, infan);
    JoinOrNonEmpty(labels, TYPE_SENTINEL);
    if labels != [] {
      SplitJoinRoundTrip(labels);
      JoinHead(", ", labels);
      assert labels[0][0] != 'N';
    }
  }

  /**
   * TIPO_VIOLENCIA is never empty, splitting it at ',' and stripping gives
   * back the affirmed labels in order, and it is the sentinel exactly when
   * no kind is affirmed.
   */
  lemma ViolenceTypeRoundTrip(r: Row)
    ensures ViolenceType(r) != ""
    ensures ViolenceLabels(r) != [] ==> StripAll(SplitOn(ViolenceType(r), ',')) == ViolenceLabels(r)
    ensures ViolenceType(r) == TYPE_SENTINEL <==> ViolenceLabels(r) == []
  {
    KindTextRoundTrip(IsTypeAffirmative(r, "VIOL_FISIC"), IsTypeAffirmative(r, "VIOL_PSICO"),
                      IsTypeAffirmative(r, "VIOL_SEXU"), IsTypeAffirmative(r, "VIOL_INFAN"));
  }

  function ViolenceTypeCell(r: Row): Cell {
    Str(ViolenceType(r))
  }

  /** Step 5: TIPO_VIOLENCIA for every row. */
  function ViolenceTypeStage(f: Frame): Frame {
    MapColumn(f, "TIPO_VIOLENCIA", ViolenceTypeCell)
  }

  // ---------------------------------------------------------------------
  // Sex labels

  const MALE_TEXTS: seq<string> := ["1", "M", "MASCULINO"]
  const FEMALE_TEXTS: seq<string> := ["2", "F", "FEMININO"]

  /** map_sex of this copy on the normalised text: the default is 'Ignorado'. */
  function SexOfText(s: string): (r: string)
    ensures r == "Masculino" <==> s in MALE_TEXTS
    ensures r == "Feminino" <==> s in FEMALE_TEXTS
    ensures r == "Ignorado" <==> s !in MALE_TEXTS && s !in FEMALE_TEXTS
  {
    if s in MALE_TEXTS then "Masculino"
    else if s in FEMALE_TEXTS then "Feminino"
    else "Ignorado"
  }

  /** map_sex: str(val).strip().upper(), then the label. */
  function MapSex(v: Cell): string {
    SexOfText(Upper(Strip(CellText(v))))
  }

  /** A text without surrounding whitespace is read by its upper-cased form. */
  lemma MapSexOfStripped(s: string)
    requires IsStripped(s)
    ensures MapSex(Str(s)) == SexOfText(Upper(s))
  {
    StripOfStripped(s);
  }

  /** Step 6: SEXO, only when CS_SEXO exists. */
  function SexStage(f: Frame): Frame {
    if "CS_SEXO" in f.columns then MapColumn(f, "SEXO", r => Str(MapSex(Get(r, "CS_SEXO")))) else f
  }

  // ---------------------------------------------------------------------
  // Report delay

  const MAX_DELAY_DAYS: int := 3650

  /** TEMPO_OCOR_DENUNCIA of one row: days from occurrence to notification, kept only in [0, 3650]. */
  function ReportDelay(notified: Cell, occurred: Cell): (r: Cell)
    ensures r.Null? || r.Num?
    ensures r.Num? <==> notified.Date? && occurred.Date? && 0 <= notified.t.day - occurred.t.day <= MAX_DELAY_DAYS
    ensures r.Num? ==> r.n == notified.t.day - occurred.t.day && 0 <= r.n <= MAX_DELAY_DAYS
  {
    if notified.Date? && occurred.Date? then
      var days := notified.t.day - occurred.t.day;
      if 0 <= days <= MAX_DELAY_DAYS then Num(days) else Null
    else Null
  }

  /** Step 7: DT_OCOR parsed and TEMPO_OCOR_DENUNCIA, only when both date columns exist. */
  function DelayStage(parse: string -> Option<Stamp>, f: Frame): Frame {
    if "DT_OCOR" in f.columns && "DT_NOTIFIC" in f.columns then
      var g := MapColumn(f, "DT_OCOR", r => ToDatetime(parse, Get(r, "DT_OCOR")));
      MapColumn(g, "TEMPO_OCOR_DENUNCIA", r => ReportDelay(Get(r, "DT_NOTIFIC"), Get(r, "DT_OCOR")))
    else f
  }

  // ---------------------------------------------------------------------
  // Justice referrals

  const ENC_COLUMNS: seq<string> := ["ENC_DELEG", "ENC_DPCA", "ENC_MPU", "ENC_VARA"]
  const ENC_CHECK: seq<string> := ["1", "SIM", "S", "1.0"]
  const NO_REFERRAL: string := "Nenhum"

  /** The label of a referral column. */
  function EncName(c: string): string {
    if c == "ENC_DELEG" then "Delegacia"
    else if c == "ENC_DPCA" then "DPCA"
    else if c == "ENC_MPU" then "Min. Público"
    else if c == "ENC_VARA" then "Vara Infância"
    else ""
  }

  /** A referral text: '1', 'SIM', 'S', '1.0' or any digit string worth 1. */
  predicate IsReferralText(val: string) {
    val in ENC_CHECK || (IsDigits(val) && DigitsValue(val) == 1)
  }

  /** The referral test of get_enc: a present, non-missing value whose upper-cased, stripped text is a referral. */
  predicate IsReferred(r: Row, c: string) {
    c in r && !r[c].Null? && IsReferralText(Strip(Upper(CellText(r[c]))))
  }

  /** The referral test of one row, as a test on column names. */
  function ReferredIn(r: Row): (referred: string -> bool)
    ensures forall c :: referred(c) == IsReferred(r, c)
  {
    c => IsReferred(r, c)
  }

  /** The labels of the columns among cols that hold a referral, in column order. */
  function EncLabels(referred: string -> bool, cols: seq<string>): (labels: seq<string>)
    ensures |labels| <= |cols|
    ensures forall l :: l in labels ==> exists c :: c in cols && referred(c) && l == EncName(c)
    ensures forall c :: c in cols && referred(c) ==> EncName(c) in labels
  {
    if cols == [] then []
    else
      var c := cols[|cols| - 1];
      var init := cols[..|cols| - 1];
      assert cols == init + [c];
      EncLabels(referred, init) + (if referred(c) then [EncName(c)] else [])
  }

  /** What get_enc returns. */
  function EncText(r: Row): string {
    JoinOr(EncLabels(ReferredIn(r), ENC_COLUMNS), NO_REFERRAL)
  }

  /** get_enc: the loop over the four referral columns. */
  method GetEnc(row: Row) returns (text: string)
    ensures text == EncText(row)
  {
    var encs: seq<string> := [];
    for k := 0 to |ENC_COLUMNS|
      invariant encs == EncLabels(ReferredIn(row), ENC_COLUMNS[..k])
    {
      var c := ENC_COLUMNS[k];
      EncLabelsSnoc(ReferredIn(row), ENC_COLUMNS, k);
      if c in row && !row[c].Null? {
        var val := Strip(Upper(CellText(row[c])));
        if val in ENC_CHECK || (IsDigits(val) && DigitsValue(val) == 1) {
          if c == "ENC_DELEG" { encs := encs + ["Delegacia"]; }
          else if c == "ENC_DPCA" { encs := encs + ["DPCA"]; }
          else if c == "ENC_MPU" { encs := encs + ["Min. Público"]; }
          else if c == "ENC_VARA" { encs := encs + ["Vara Infância"]; }
        }
      }
    }
    assert ENC_COLUMNS[..|ENC_COLUMNS|] == ENC_COLUMNS;
    if encs != [] {
      text := Join(", ", encs);
    } else {
      text := NO_REFERRAL;
    }
  }

  /** One more column adds its label when it holds a referral. */
  lemma EncLabelsSnoc(referred: string -> bool, cols: seq<string>, k: nat)
    requires k < |cols|
    ensures EncLabels(referred, cols[..k + 1])
      == EncLabels(referred, cols[..k]) + (if referred(cols[k]) then [EncName(cols[k])] else [])
  {
    assert cols[..k + 1][..k] == cols[..k];
  }

  lemma PaddedOneIsReferral(z: nat)
    ensures IsReferralText(Strip(Upper(Zeros(z) + "1")))
  {
    var s := Zeros(z) + "1";
    assert forall i :: 0 <= i < |s| ==> IsDigit(s[i]);
    assert Upper(s) == s;
    NoSpaceIsStripped(s);
    ZerosValue(z, "1");
    assert DigitsValue("1") == DigitsValue("") * 10 + DigitOf('1');
  }

  /** Leading zeros do not hide a referral: '01' and '001' count like '1'. */
  lemma ReferredByPaddedOne(r: Row, c: string, z: nat)
    requires c in r && r[c] == Str(Zeros(z) + "1")
    ensures IsReferred(r, c)
  {
    PaddedOneIsReferral(z);
  }

  /** Each referral label is a clean list item that does not open like 'Nenhum'. */
  lemma EncNamesClean()
    ensures forall c :: c in ENC_COLUMNS ==>
              EncName(c) != "" && ',' !in EncName(c) && IsStripped(EncName(c)) && EncName(c)[0] != 'N'
  {
  }

  /**
   * The referral text is never empty, splits back into its labels, and is
   * 'Nenhum' exactly when no column holds a referral.
   */
  lemma EncLabelsText(referred: string -> bool)
    ensures var labels := EncLabels(referred, ENC_COLUMNS);
            && JoinOr(labels, NO_REFERRAL) != ""
            && (labels != [] ==> StripAll(SplitOn(JoinOr(labels, NO_REFERRAL), ',')) == labels)
            && (JoinOr(labels, NO_REFERRAL) == NO_REFERRAL <==> forall c :: c in ENC_COLUMNS ==> !referred(c))
  {
    var labels := EncLabels(referred, ENC_COLUMNS);
    EncNamesClean();
    assert forall l :: l in labels ==> l != "" && ',' !in l && IsStripped(l) && l[0] != 'N';
    JoinOrNonEmpty(labels, NO_REFERRAL);
    if labels != [] {
      assert labels[0] in labels;
      SplitJoinRoundTrip(labels);
      JoinHead(", ", labels);
    }
  }

  /** ENCAMINHAMENTOS_JUSTICA is never empty, and 'Nenhum' exactly when no referral holds. */
  lemma EncTextCases(r: Row)
    ensures EncText(r) != ""
    ensures EncText(r) == NO_REFERRAL <==> forall c :: c in ENC_COLUMNS ==> !IsReferred(r, c)
    ensures EncText(r) != NO_REFERRAL ==>
              StripAll(SplitOn(EncText(r), ',')) == EncLabels(ReferredIn(r), ENC_COLUMNS)
  {
    EncLabelsText(ReferredIn(r));
  }

  function EncCell(r: Row): Cell {
    Str(EncText(r))
  }

  /** Step 8: ENCAMINHAMENTOS_JUSTICA, or 'Não informado' without any referral column. */
  function EncStage(f: Frame): Frame {
    if exists c :: c in ENC_COLUMNS && c in f.columns then
      MapColumn(f, "ENCAMINHAMENTOS_JUSTICA", EncCell)
    else FillColumn(f, "ENCAMINHAMENTOS_JUSTICA", Str(NOT_INFORMED))
  }

  // ---------------------------------------------------------------------
  // Aggressor sex

  const OTHER_TEXTS: seq<string> := ["3", "OUTROS"]

  /** map_as on the normalised text: unknown texts are not informed. */
  function AutorSexOfText(s: string): (r: string)
    ensures r in ["Masculino", "Feminino", "Outros", NOT_INFORMED]
    ensures r == "Outros" <==> s in OTHER_TEXTS && s !in MALE_TEXTS && s !in FEMALE_TEXTS
  {
    if s in MALE_TEXTS then "Masculino"
    else if s in FEMALE_TEXTS then "Feminino"
    else if s in OTHER_TEXTS then "Outros"
    else NOT_INFORMED
  }

  /** map_as: missing is not informed, otherwise str(val).upper().strip(), then the label. */
  function MapAutorSexo(v: Cell): (r: string)
    ensures r in ["Masculino", "Feminino", "Outros", NOT_INFORMED]
    ensures v.Null? ==> r == NOT_INFORMED
  {
    if v.Null? then NOT_INFORMED else AutorSexOfText(Strip(Upper(CellText(v))))
  }

  lemma MapAutorSexoOfStripped(s: string)
    requires IsStripped(s)
    ensures MapAutorSexo(Str(s)) == AutorSexOfText(Upper(s))
  {
    UpperOfStripped(s);
    StripOfStripped(Upper(s));
  }

  /** Step 9: AUTOR_SEXO_CORRIGIDO, or 'Não informado' without AUTOR_SEXO. */
  function AutorSexoStage(f: Frame): Frame {
    if "AUTOR_SEXO" in f.columns then
      MapColumn(f, "AUTOR_SEXO_CORRIGIDO", r => Str(MapAutorSexo(Get(r, "AUTOR_SEXO"))))
    else FillColumn(f, "AUTOR_SEXO_CORRIGIDO", Str(NOT_INFORMED))
  }

  // ---------------------------------------------------------------------
  // Relationship to the aggressor

  /** RELACIONAMENTO_DICT. */
  const REL_NAMES: map<string, string> := map[
    "REL_PAI" := "Pai", "REL_MAE" := "Mãe", "REL_PAD" := "Padrasto", "REL_MAD" := "Madrasta",
    "REL_CONJ" := "Cônjuge", "REL_EXCON" := "Ex-cônjuge", "REL_NAMO" := "Namorado(a)",
    "REL_EXNAM" := "Ex-namorado(a)", "REL_FILHO" := "Filho(a)", "REL_IRMAO" := "Irmão(ã)",
    "REL_AMIGO" := "Amigo(a)/Conhecido", "REL_CONHEC" := "Conhecido", "REL_DESCON" := "Desconhecido",
    "REL_CUIDAD" := "Cuidador(a)", "REL_PATRAO" := "Patrão/Chefe", "REL_INST" := "Institucional",
    "REL_POL" := "Policial/Agente", "REL_PROPRI" := "Própria Pessoa", "REL_OUTROS" := "Outros"]

  const REL_CHECK: seq<string> := ["1", "SIM", "S", "1.0"]

  /** The readable name of an unlisted column: its suffix title-cased. */
  function RelTitle(c: string): string {
    Title(Replace(Replace(c, "REL_", ""), "_", " "))
  }

  /** The fallback name: the title-cased suffix, or a common name it contains. */
  function RelFallback(c: string): string {
    var t := RelTitle(c);
    if Contains(t, "Pai") then "Pai"
    else if Contains(t, "Mae") then "Mãe"
    else if Contains(t, "Padr") then "Padrasto"
    else if Contains(t, "Madr") then "Madrasta"
    else if Contains(t, "Conjug") then "Cônjuge"
    else if Contains(t, "Exnam") then "Ex-namorado(a)"
    else if Contains(t, "Namor") then "Namorado(a)"
    else if Contains(t, "Amig") then "Amigo(a)"
    else if Contains(t, "Descon") then "Desconhecido"
    else t
  }

  /** The name of a relationship column: the dictionary first, the fallback otherwise. */
  function RelName(c: string): string {
    if c in REL_NAMES then REL_NAMES[c] else RelFallback(c)
  }

  /** One relationship flag is set: present, not missing, and affirmative once upper-cased and stripped. */
  predicate IsRelSet(r: Row, c: string) {
    c in r && !r[c].Null? && Strip(Upper(CellText(r[c]))) in REL_CHECK
  }

  /** The flag test of one row, as a test on column names. */
  function RelSetIn(r: Row): (isSet: string -> bool)
    ensures forall c :: isSet(c) == IsRelSet(r, c)
  {
    c => IsRelSet(r, c)
  }

  /** get_rel's list: the names of the set flags, each name once, in first-seen order. */
  function RelLabels(isSet: string -> bool, cols: seq<string>): (rels: seq<string>)
    ensures Distinct(rels)
    ensures forall l :: l in rels ==> exists c :: c in cols && isSet(c) && l == RelName(c)
    ensures forall c :: c in cols && isSet(c) ==> RelName(c) in rels
  {
    if cols == [] then []
    else
      var prev := RelLabels(isSet, cols[..|cols| - 1]);
      var c := cols[|cols| - 1];
      if isSet(c) && RelName(c) !in prev then prev + [RelName(c)] else prev
  }

  /** What get_rel returns. */
  function RelText(r: Row, cols: seq<string>): string {
    JoinOr(RelLabels(RelSetIn(r), cols), NOT_INFORMED)
  }

  /** get_rel: the loop over the relationship columns with its duplicate check. */
  method GetRel(row: Row, relCols: seq<string>) returns (text: string)
    ensures text == RelText(row, relCols)
  {
    var rels: seq<string> := [];
    for k := 0 to |relCols|
      invariant rels == RelLabels(RelSetIn(row), relCols[..k])
    {
      var c := relCols[k];
      assert relCols[..k + 1][..k] == relCols[..k];
      if c in row && !row[c].Null? {
        var val := Strip(Upper(CellText(row[c])));
        if val in REL_CHECK {
          var name: string;
          if c in REL_NAMES {
            name := REL_NAMES[c];
          } else {
            name := RelFallback(c);
          }
          if name !in rels {
            rels := rels + [name];
          }
        }
      }
    }
    assert relCols[..|relCols|] == relCols;
    if rels != [] {
      text := Join(", ", rels);
    } else {
      text := NOT_INFORMED;
    }
  }

  /** A column whose suffix has a character other than '_' gets a non-empty name. */
  lemma RelNameNonEmpty(c: string)
    requires Replace(Replace(c, "REL_", ""), "_", " ") != ""
    ensures RelName(c) != ""
  {
    if c in REL_NAMES {
      assert REL_NAMES[c] in REL_NAMES.Values;
    }
  }

  /** GRAU_PARENTESCO is never empty when no flag column is named 'REL_' plus underscores. */
  lemma RelTextNonEmpty(r: Row, cols: seq<string>)
    requires forall c :: c in cols ==> Replace(Replace(c, "REL_", ""), "_", " ") != ""
    ensures RelText(r, cols) != ""
  {
    var rels := RelLabels(RelSetIn(r), cols);
    forall l | l in rels
      ensures l != ""
    {
      var c :| c in cols && RelSetIn(r)(c) && l == RelName(c);
      RelNameNonEmpty(c);
    }
    JoinOrNonEmpty(rels, NOT_INFORMED);
  }

  /** The GRAU_PARENTESCO cell of a row over the given flag columns. */
  function RelCell(relCols: seq<string>): (cell: Row -> Cell)
    ensures forall r :: cell(r) == Str(RelText(r, relCols))
  {
    r => Str(RelText(r, relCols))
  }

  /** Step 10: GRAU_PARENTESCO over the REL_* flags other than REL_TRAB and REL_CAT. */
  function RelStage(f: Frame): Frame {
    var relCols := RelColumns(f.columns);
    if relCols != [] then MapColumn(f, "GRAU_PARENTESCO", RelCell(relCols))
    else FillColumn(f, "GRAU_PARENTESCO", Str(NOT_INFORMED))
  }

  /** Two rows with the same relationship flags over cols get the same names. */
  lemma {:induction false} RelLabelsSame(p: string -> bool, q: string -> bool, cols: seq<string>)
    requires forall c :: c in cols ==> p(c) == q(c)
    ensures RelLabels(p, cols) == RelLabels(q, cols)
  {
    if cols != [] {
      RelLabelsSame(p, q, cols[..|cols| - 1]);
    }
  }

  // ---------------------------------------------------------------------
  // The whole of create_derived_columns

  /** Step 2: FAIXA_ETARIA through create_faixa_etaria, unless it already exists. */
  function FaixaStage(f: Frame): Frame {
    if "FAIXA_ETARIA" in f.columns then f else FaixaEtariaColumn(f)
  }

  /** Steps 2 to 4: age band, state and municipality names. */
  function PlacedFrame(names: map<string, string>, f: Frame): Frame {
    MunicipioStage(names, UfStage(FaixaStage(f)))
  }

  const PLACED_COLUMNS: set<string> := {"FAIXA_ETARIA", "UF_NOTIFIC", "MUNICIPIO_NOTIFIC"}

  /** Steps 1 to 4: year, age band, state and municipality names. */
  function LocatedFrame(parse: string -> Option<Stamp>, names: map<string, string>, f: Frame): Frame {
    PlacedFrame(names, DateStage(parse, f))
  }

  const LOCATED_COLUMNS: set<string> :=
    {"DT_NOTIFIC", "ANO_NOTIFIC", "FAIXA_ETARIA", "UF_NOTIFIC", "MUNICIPIO_NOTIFIC"}

  /** Steps 6 and 7: victim sex and report delay. */
  function TimedFrame(parse: string -> Option<Stamp>, f: Frame): Frame {
    DelayStage(parse, SexStage(f))
  }

  const TIMED_COLUMNS: set<string> := {"SEXO", "DT_OCOR", "TEMPO_OCOR_DENUNCIA"}

  /** Steps 8 to 10: referrals, aggressor sex and relationship. */
  function ClassifiedFrame(f: Frame): Frame {
    RelStage(AutorSexoStage(EncStage(f)))
  }

  const CLASSIFIED_COLUMNS: set<string> :=
    {"ENCAMINHAMENTOS_JUSTICA", "AUTOR_SEXO_CORRIGIDO", "GRAU_PARENTESCO"}

  /** create_derived_columns: the ten steps in order. */
  function DerivedColumns(parse: string -> Option<Stamp>, names: map<string, string>, f: Frame): Frame {
    ClassifiedFrame(TimedFrame(parse, ViolenceTypeStage(LocatedFrame(parse, names, f))))
  }

  /** Steps 1 to 4 as create_derived_columns assigns them to df. */
  method AddLocation(parse: string -> Option<Stamp>, names: map<string, string>, data: Frame)
    returns (df: Frame)
    ensures df == LocatedFrame(parse, names, data)
  {
    df := DateStage(parse, data);
    if "FAIXA_ETARIA" !in df.columns {
      df := CreateFaixaEtaria(df);
    }
    df := UfStage(df);
    df := MunicipioStage(names, df);
  }

  /** Steps 5 to 7: the violence type row by row, then sex and delay. */
  method AddTypeAndDelay(parse: string -> Option<Stamp>, data: Frame) returns (df: Frame)
    ensures df == TimedFrame(parse, ViolenceTypeStage(data))
  {
    df := ApplyRows(data, "TIPO_VIOLENCIA", ViolenceTypeCell);
    df := SexStage(df);
    df := DelayStage(parse, df);
  }

  /** Steps 8 to 10: referrals and relationship row by row when their columns exist. */
  method AddClassification(data: Frame) returns (df: Frame)
    ensures df == ClassifiedFrame(data)
  {
    if exists c :: c in ENC_COLUMNS && c in data.columns {
      df := ApplyRows(data, "ENCAMINHAMENTOS_JUSTICA", EncCell);
    } else {
      df := FillColumn(data, "ENCAMINHAMENTOS_JUSTICA", Str(NOT_INFORMED));
    }
    df := AutorSexoStage(df);
    var relCols := RelColumns(df.columns);
    if relCols != [] {
      df := ApplyRows(df, "GRAU_PARENTESCO", RelCell(relCols));
    } else {
      df := FillColumn(df, "GRAU_PARENTESCO", Str(NOT_INFORMED));
    }
  }

  /** create_derived_columns: the stages assigned to df one after the other. */
  method CreateDerivedColumns(parse: string -> Option<Stamp>, names: map<string, string>, data: Frame)
    returns (df: Frame)
    ensures df == DerivedColumns(parse, names, data)
  {
    df := AddLocation(parse, names, data);
    df := AddTypeAndDelay(parse, df);
    df := AddClassification(df);
  }

  // ---------------------------------------------------------------------
  // What each step leaves alone

  lemma DateStageDerives(parse: string -> Option<Stamp>, f: Frame)
    ensures Derives(f, DateStage(parse, f), {"DT_NOTIFIC", "ANO_NOTIFIC"})
  {
    if "DT_NOTIFIC" in f.columns {
      var g := MapColumn(f, "DT_NOTIFIC", r => ToDatetime(parse, Get(r, "DT_NOTIFIC")));
      MapColumnDerives(f, "DT_NOTIFIC", r => ToDatetime(parse, Get(r, "DT_NOTIFIC")));
      MapColumnDerives(g, "ANO_NOTIFIC", r => YearOf(Get(r, "DT_NOTIFIC")));
      DerivesTrans(f, g, DateStage(parse, f), {"DT_NOTIFIC"}, {"ANO_NOTIFIC"});
    } else if "NU_ANO" in f.columns {
      MapColumnDerives(f, "ANO_NOTIFIC", r => ToNumeric(Get(r, "NU_ANO")));
      DerivesWider(f, DateStage(parse, f), {"ANO_NOTIFIC"}, {"DT_NOTIFIC", "ANO_NOTIFIC"});
    } else {
      DerivesRefl(f, {"DT_NOTIFIC", "ANO_NOTIFIC"});
    }
  }

  lemma FaixaStageDerives(f: Frame)
    ensures Derives(f, FaixaStage(f), {"FAIXA_ETARIA"})
  {
    if "FAIXA_ETARIA" in f.columns || "NU_IDADE_N" !in f.columns {
      DerivesRefl(f, {"FAIXA_ETARIA"});
    } else {
      MapColumnDerives(f, "FAIXA_ETARIA", r => Str(AgeBand(Get(r, "NU_IDADE_N"))));
    }
  }

  lemma UfStageDerives(f: Frame)
    ensures Derives(f, UfStage(f), {"UF_NOTIFIC"})
  {
    if "SG_UF_NOT" in f.columns {
      MapColumnDerives(f, "UF_NOTIFIC", r => Str(MapUf(Get(r, "SG_UF_NOT"))));
    } else if "SG_UF" in f.columns {
      MapColumnDerives(f, "UF_NOTIFIC", r => Str(MapUf(Get(r, "SG_UF"))));
    } else {
      MapColumnDerives(f, "UF_NOTIFIC", _ => Str("N/A"));
    }
  }

  lemma MunicipioStageDerives(names: map<string, string>, f: Frame)
    ensures Derives(f, MunicipioStage(names, f), {"MUNICIPIO_NOTIFIC"})
  {
    if "ID_MUNICIP" in f.columns {
      MapColumnDerives(f, "MUNICIPIO_NOTIFIC", r => Str(MapMunicipio(names, Get(r, "ID_MUNICIP"))));
    } else if "ID_MN_RESI" in f.columns {
      MapColumnDerives(f, "MUNICIPIO_NOTIFIC", r => Str(MapMunicipio(names, Get(r, "ID_MN_RESI"))));
    } else {
      MapColumnDerives(f, "MUNICIPIO_NOTIFIC", _ => Str("N/A"));
    }
  }

  /** Steps 2 to 4 write only their own three columns. */
  lemma PlacedFrameDerives(names: map<string, string>, f: Frame)
    ensures Derives(f, PlacedFrame(names, f), PLACED_COLUMNS)
  {
    var f1 := FaixaStage(f);
    var f2 := UfStage(f1);
    FaixaStageDerives(f);
    UfStageDerives(f1);
    MunicipioStageDerives(names, f2);
    DerivesTrans(f, f1, f2, {"FAIXA_ETARIA"}, {"UF_NOTIFIC"});
    DerivesTrans(f, f2, PlacedFrame(names, f), {"FAIXA_ETARIA", "UF_NOTIFIC"}, {"MUNICIPIO_NOTIFIC"});
    assert {"FAIXA_ETARIA", "UF_NOTIFIC"} + {"MUNICIPIO_NOTIFIC"} == PLACED_COLUMNS;
  }

  /** Steps 1 to 4 write only their own five columns. */
  lemma LocatedFrameDerives(parse: string -> Option<Stamp>, names: map<string, string>, f: Frame)
    ensures Derives(f, LocatedFrame(parse, names, f), LOCATED_COLUMNS)
  {
    DateStageDerives(parse, f);
    PlacedFrameDerives(names, DateStage(parse, f));
    DerivesTrans(f, DateStage(parse, f), LocatedFrame(parse, names, f), {"DT_NOTIFIC", "ANO_NOTIFIC"}, PLACED_COLUMNS);
    assert {"DT_NOTIFIC", "ANO_NOTIFIC"} + PLACED_COLUMNS == LOCATED_COLUMNS;
  }

  lemma SexStageDerives(f: Frame)
    ensures Derives(f, SexStage(f), {"SEXO"})
  {
    if "CS_SEXO" in f.columns {
      MapColumnDerives(f, "SEXO", r => Str(MapSex(Get(r, "CS_SEXO"))));
    } else {
      DerivesRefl(f, {"SEXO"});
    }
  }

  lemma DelayStageDerives(parse: string -> Option<Stamp>, f: Frame)
    ensures Derives(f, DelayStage(parse, f), {"DT_OCOR", "TEMPO_OCOR_DENUNCIA"})
  {
    if "DT_OCOR" in f.columns && "DT_NOTIFIC" in f.columns {
      var g := MapColumn(f, "DT_OCOR", r => ToDatetime(parse, Get(r, "DT_OCOR")));
      MapColumnDerives(f, "DT_OCOR", r => ToDatetime(parse, Get(r, "DT_OCOR")));
      MapColumnDerives(g, "TEMPO_OCOR_DENUNCIA", r => ReportDelay(Get(r, "DT_NOTIFIC"), Get(r, "DT_OCOR")));
      DerivesTrans(f, g, DelayStage(parse, f), {"DT_OCOR"}, {"TEMPO_OCOR_DENUNCIA"});
    } else {
      DerivesRefl(f, {"DT_OCOR", "TEMPO_OCOR_DENUNCIA"});
    }
  }

  /** Steps 6 and 7 write only their own three columns. */
  lemma TimedFrameDerives(parse: string -> Option<Stamp>, f: Frame)
    ensures Derives(f, TimedFrame(parse, f), TIMED_COLUMNS)
  {
    SexStageDerives(f);
    DelayStageDerives(parse, SexStage(f));
    DerivesTrans(f, SexStage(f), TimedFrame(parse, f), {"SEXO"}, {"DT_OCOR", "TEMPO_OCOR_DENUNCIA"});
    assert {"SEXO"} + {"DT_OCOR", "TEMPO_OCOR_DENUNCIA"} == TIMED_COLUMNS;
  }

  lemma EncStageDerives(f: Frame)
    ensures Derives(f, EncStage(f), {"ENCAMINHAMENTOS_JUSTICA"})
  {
    if exists c :: c in ENC_COLUMNS && c in f.columns {
      MapColumnDerives(f, "ENCAMINHAMENTOS_JUSTICA", EncCell);
    } else {
      MapColumnDerives(f, "ENCAMINHAMENTOS_JUSTICA", _ => Str(NOT_INFORMED));
    }
  }

  lemma AutorSexoStageDerives(f: Frame)
    ensures Derives(f, AutorSexoStage(f), {"AUTOR_SEXO_CORRIGIDO"})
  {
    if "AUTOR_SEXO" in f.columns {
      MapColumnDerives(f, "AUTOR_SEXO_CORRIGIDO", r => Str(MapAutorSexo(Get(r, "AUTOR_SEXO"))));
    } else {
      MapColumnDerives(f, "AUTOR_SEXO_CORRIGIDO", _ => Str(NOT_INFORMED));
    }
  }

  lemma RelStageDerives(f: Frame)
    ensures Derives(f, RelStage(f), {"GRAU_PARENTESCO"})
  {
    var relCols := RelColumns(f.columns);
    if relCols != [] {
      MapColumnDerives(f, "GRAU_PARENTESCO", RelCell(relCols));
    } else {
      MapColumnDerives(f, "GRAU_PARENTESCO", _ => Str(NOT_INFORMED));
    }
  }

  /** Steps 8 to 10 write only their own three columns. */
  lemma ClassifiedFrameDerives(f: Frame)
    ensures Derives(f, ClassifiedFrame(f), CLASSIFIED_COLUMNS)
  {
    EncStageDerives(f);
    AfterReferralsDerive(EncStage(f));
    DerivesTrans(f, EncStage(f), ClassifiedFrame(f), {"ENCAMINHAMENTOS_JUSTICA"}, {"AUTOR_SEXO_CORRIGIDO", "GRAU_PARENTESCO"});
    assert {"ENCAMINHAMENTOS_JUSTICA"} + {"AUTOR_SEXO_CORRIGIDO", "GRAU_PARENTESCO"} == CLASSIFIED_COLUMNS;
  }

  /** Every column create_derived_columns may assign. */
  const DERIVED_COLUMNS: set<string> := LOCATED_COLUMNS + {"TIPO_VIOLENCIA"} + TIMED_COLUMNS + CLASSIFIED_COLUMNS

  /**
   * create_derived_columns keeps every row and every source column, adds no
   * column beyond the derived ones, leaves every other cell as it was, and
   * keeps a well-formed frame well-formed.
   */
  lemma DerivedColumnsDerives(parse: string -> Option<Stamp>, names: map<string, string>, f: Frame)
    ensures Derives(f, DerivedColumns(parse, names, f), DERIVED_COLUMNS)
  {
    var located := LocatedFrame(parse, names, f);
    var typed := ViolenceTypeStage(located);
    var timed := TimedFrame(parse, typed);
    LocatedFrameDerives(parse, names, f);
    MapColumnDerives(located, "TIPO_VIOLENCIA", ViolenceTypeCell);
    TimedFrameDerives(parse, typed);
    ClassifiedFrameDerives(timed);
    DerivesChain(f, located, typed, timed, DerivedColumns(parse, names, f),
                 LOCATED_COLUMNS, {"TIPO_VIOLENCIA"}, TIMED_COLUMNS, CLASSIFIED_COLUMNS);
  }

  // ---------------------------------------------------------------------
  // What the derived columns hold

  lemma AffirmativeOfSame(r1: Row, r2: Row, c: string)
    requires SameAt(r1, r2, c)
    ensures IsTypeAffirmative(r1, c) == IsTypeAffirmative(r2, c)
  {
    assert GetOr(r1, c, Str("")) == GetOr(r2, c, Str(""));
  }

  /** get_violence_type reads only the four VIOL_* cells. */
  lemma ViolenceTypeOfSame(r1: Row, r2: Row)
    requires SameAt(r1, r2, "VIOL_FISIC") && SameAt(r1, r2, "VIOL_PSICO")
    requires SameAt(r1, r2, "VIOL_SEXU") && SameAt(r1, r2, "VIOL_INFAN")
    ensures ViolenceType(r1) == ViolenceType(r2)
  {
    AffirmativeOfSame(r1, r2, "VIOL_FISIC");
    AffirmativeOfSame(r1, r2, "VIOL_PSICO");
    AffirmativeOfSame(r1, r2, "VIOL_SEXU");
    AffirmativeOfSame(r1, r2, "VIOL_INFAN");
  }

  /** Steps 6 to 10 write only their own six columns. */
  lemma LaterStagesDerive(parse: string -> Option<Stamp>, f: Frame)
    ensures Derives(f, ClassifiedFrame(TimedFrame(parse, f)), TIMED_COLUMNS + CLASSIFIED_COLUMNS)
  {
    TimedFrameDerives(parse, f);
    ClassifiedFrameDerives(TimedFrame(parse, f));
    DerivesTrans(f, TimedFrame(parse, f), ClassifiedFrame(TimedFrame(parse, f)), TIMED_COLUMNS, CLASSIFIED_COLUMNS);
  }

  /** The four flags get_violence_type reads. */
  const TYPE_FLAGS: set<string> := {"VIOL_FISIC", "VIOL_PSICO", "VIOL_SEXU", "VIOL_INFAN"}

  /** Steps 1 to 4 write none of the flags step 5 reads. */
  lemma TypeFlagsNotLocated()
    ensures forall c :: c in TYPE_FLAGS ==> c !in LOCATED_COLUMNS
  {
    forall c | c in TYPE_FLAGS
      ensures c !in LOCATED_COLUMNS
    {
      assert c[0] == 'V';
    }
  }

  /** Steps 6 to 10 do not write the column step 5 writes. */
  lemma TypeNotLater()
    ensures "TIPO_VIOLENCIA" !in TIMED_COLUMNS + CLASSIFIED_COLUMNS
  {
    assert |"TIPO_VIOLENCIA"| == 14;
  }

  /** A column step 5 writes and no other step touches keeps step 5's value. */
  lemma TypeSurvives(f: Frame, located: Frame, g: Frame, i: nat)
    requires Derives(f, located, LOCATED_COLUMNS)
    requires Derives(ViolenceTypeStage(located), g, TIMED_COLUMNS + CLASSIFIED_COLUMNS)
    requires i < |f.rows|
    ensures Get(g.rows[i], "TIPO_VIOLENCIA") == Str(ViolenceType(f.rows[i]))
  {
    TypeFlagsNotLocated();
    ViolenceTypeOfSame(f.rows[i], located.rows[i]);
    TypeNotLater();
    assert SameAt(ViolenceTypeStage(located).rows[i], g.rows[i], "TIPO_VIOLENCIA");
  }

  /** TIPO_VIOLENCIA of the result is get_violence_type of the source row. */
  lemma DerivedViolenceType(parse: string -> Option<Stamp>, names: map<string, string>, f: Frame, i: nat)
    requires i < |f.rows|
    ensures var g := DerivedColumns(parse, names, f);
            i < |g.rows| && Get(g.rows[i], "TIPO_VIOLENCIA") == Str(ViolenceType(f.rows[i]))
  {
    var located := LocatedFrame(parse, names, f);
    LocatedFrameDerives(parse, names, f);
    LaterStagesDerive(parse, ViolenceTypeStage(located));
    TypeSurvives(f, located, DerivedColumns(parse, names, f), i);
  }

  /** get_enc reads only the four ENC_* cells. */
  lemma ReferredOfSame(r1: Row, r2: Row, c: string)
    requires SameAt(r1, r2, c)
    ensures IsReferred(r1, c) == IsReferred(r2, c)
  {
  }

  lemma {:induction false} EncLabelsSame(p: string -> bool, q: string -> bool, cols: seq<string>)
    requires forall c :: c in cols ==> p(c) == q(c)
    ensures EncLabels(p, cols) == EncLabels(q, cols)
  {
    if cols != [] {
      EncLabelsSame(p, q, cols[..|cols| - 1]);
    }
  }

  lemma EncTextOfSame(r1: Row, r2: Row)
    requires forall c :: c in ENC_COLUMNS ==> SameAt(r1, r2, c)
    ensures EncText(r1) == EncText(r2)
  {
    forall c | c in ENC_COLUMNS
      ensures ReferredIn(r1)(c) == ReferredIn(r2)(c)
    {
      ReferredOfSame(r1, r2, c);
    }
    EncLabelsSame(ReferredIn(r1), ReferredIn(r2), ENC_COLUMNS);
  }

  /** Every column steps 1 to 7 may write. */
  const EARLIER_COLUMNS: set<string> := LOCATED_COLUMNS + {"TIPO_VIOLENCIA"} + TIMED_COLUMNS

  /** Steps 1 to 7 write none of the referral columns. */
  lemma ReferralsNotEarlier()
    ensures forall c :: c in ENC_COLUMNS ==> c !in EARLIER_COLUMNS
  {
    forall c | c in ENC_COLUMNS
      ensures c !in EARLIER_COLUMNS
    {
      assert c[0] == 'E';
    }
  }

  /** Steps 1 to 7 write only their own columns. */
  lemma EarlierStagesDerive(parse: string -> Option<Stamp>, names: map<string, string>, f: Frame)
    ensures Derives(f, TimedFrame(parse, ViolenceTypeStage(LocatedFrame(parse, names, f))), EARLIER_COLUMNS)
  {
    var located := LocatedFrame(parse, names, f);
    var typed := ViolenceTypeStage(located);
    LocatedFrameDerives(parse, names, f);
    MapColumnDerives(located, "TIPO_VIOLENCIA", ViolenceTypeCell);
    TimedFrameDerives(parse, typed);
    DerivesTrans(f, located, typed, LOCATED_COLUMNS, {"TIPO_VIOLENCIA"});
    DerivesTrans(f, typed, TimedFrame(parse, typed), LOCATED_COLUMNS + {"TIPO_VIOLENCIA"}, TIMED_COLUMNS);
  }

  /** Steps 9 and 10 do not touch ENCAMINHAMENTOS_JUSTICA. */
  lemma AfterReferralsDerive(e: Frame)
    ensures Derives(e, RelStage(AutorSexoStage(e)), {"AUTOR_SEXO_CORRIGIDO", "GRAU_PARENTESCO"})
  {
    AutorSexoStageDerives(e);
    RelStageDerives(AutorSexoStage(e));
    DerivesTrans(e, AutorSexoStage(e), RelStage(AutorSexoStage(e)), {"AUTOR_SEXO_CORRIGIDO"}, {"GRAU_PARENTESCO"});
  }

  /** The referral cell step 8 writes into a row. */
  lemma EncStageRow(t: Frame, i: nat)
    requires i < |t.rows|
    ensures i < |EncStage(t).rows|
    ensures Get(EncStage(t).rows[i], "ENCAMINHAMENTOS_JUSTICA") ==
              if exists c :: c in ENC_COLUMNS && c in t.columns then EncCell(t.rows[i]) else Str(NOT_INFORMED)
  {
  }

  /** A referral column is a column of the frame before step 8 exactly when it is one of the source. */
  lemma ReferralColumnsKept(f: Frame, t: Frame)
    requires Derives(f, t, EARLIER_COLUMNS)
    ensures (exists c :: c in ENC_COLUMNS && c in t.columns) <==> (exists c :: c in ENC_COLUMNS && c in f.columns)
    ensures forall i :: 0 <= i < |f.rows| ==> EncText(t.rows[i]) == EncText(f.rows[i])
  {
    ReferralsNotEarlier();
    forall i | 0 <= i < |f.rows|
      ensures EncText(t.rows[i]) == EncText(f.rows[i])
    {
      EncTextOfSame(t.rows[i], f.rows[i]);
    }
  }

  /** Steps 9 and 10 do not write the column step 8 writes. */
  lemma ReferralsNotLastTwo()
    ensures "ENCAMINHAMENTOS_JUSTICA" !in {"AUTOR_SEXO_CORRIGIDO", "GRAU_PARENTESCO"}
  {
    assert |"ENCAMINHAMENTOS_JUSTICA"| == 23;
  }

  /** The referral column survives steps 9 and 10. */
  lemma ReferralsSurvive(f: Frame, t: Frame, e: Frame, g: Frame, i: nat)
    requires Derives(f, t, EARLIER_COLUMNS)
    requires i < |f.rows| && i < |e.rows|
    requires Get(e.rows[i], "ENCAMINHAMENTOS_JUSTICA") ==
               if exists c :: c in ENC_COLUMNS && c in t.columns then EncCell(t.rows[i]) else Str(NOT_INFORMED)
    requires Derives(e, g, {"AUTOR_SEXO_CORRIGIDO", "GRAU_PARENTESCO"})
    ensures Get(g.rows[i], "ENCAMINHAMENTOS_JUSTICA") ==
              if exists c :: c in ENC_COLUMNS && c in f.columns then Str(EncText(f.rows[i])) else Str(NOT_INFORMED)
  {
    ReferralColumnsKept(f, t);
    ReferralsNotLastTwo();
    SameAtOfDerives(e, g, {"AUTOR_SEXO_CORRIGIDO", "GRAU_PARENTESCO"}, "ENCAMINHAMENTOS_JUSTICA", i);
    assert SameAt(e.rows[i], g.rows[i], "ENCAMINHAMENTOS_JUSTICA");
  }

  /**
   * ENCAMINHAMENTOS_JUSTICA of the result is get_enc of the source row when
   * the source has a referral column, and 'Não informado' otherwise.
   */
  lemma DerivedReferrals(parse: string -> Option<Stamp>, names: map<string, string>, f: Frame, i: nat)
    requires i < |f.rows|
    ensures var g := DerivedColumns(parse, names, f);
            && i < |g.rows|
            && Get(g.rows[i], "ENCAMINHAMENTOS_JUSTICA") ==
                 if exists c :: c in ENC_COLUMNS && c in f.columns then Str(EncText(f.rows[i]))
                 else Str(NOT_INFORMED)
  {
    var t := TimedFrame(parse, ViolenceTypeStage(LocatedFrame(parse, names, f)));
    EarlierStagesDerive(parse, names, f);
    AfterReferralsDerive(EncStage(t));
    EncStageRow(t, i);
    ReferralsSurvive(f, t, EncStage(t), DerivedColumns(parse, names, f), i);
  }

  /** Every column steps 2 to 6 may write. */
  const MIDDLE_COLUMNS: set<string> := PLACED_COLUMNS + {"TIPO_VIOLENCIA", "SEXO"}

  /** Steps 2 to 6 write only their own columns. */
  lemma MiddleStagesDerive(names: map<string, string>, d: Frame)
    ensures Derives(d, SexStage(ViolenceTypeStage(PlacedFrame(names, d))), MIDDLE_COLUMNS)
  {
    var placed := PlacedFrame(names, d);
    var typed := ViolenceTypeStage(placed);
    PlacedFrameDerives(names, d);
    MapColumnDerives(placed, "TIPO_VIOLENCIA", ViolenceTypeCell);
    SexStageDerives(typed);
    DerivesTrans(d, placed, typed, PLACED_COLUMNS, {"TIPO_VIOLENCIA"});
    DerivesTrans(d, typed, SexStage(typed), PLACED_COLUMNS + {"TIPO_VIOLENCIA"}, {"SEXO"});
    assert PLACED_COLUMNS + {"TIPO_VIOLENCIA"} + {"SEXO"} == MIDDLE_COLUMNS;
  }

  /** The delay cell step 7 writes into a row when both date columns exist. */
  lemma DelayStageRow(parse: string -> Option<Stamp>, m: Frame, i: nat)
    requires "DT_OCOR" in m.columns && "DT_NOTIFIC" in m.columns && i < |m.rows|
    ensures i < |DelayStage(parse, m).rows|
    ensures Get(DelayStage(parse, m).rows[i], "TEMPO_OCOR_DENUNCIA") ==
              ReportDelay(Get(m.rows[i], "DT_NOTIFIC"), ToDatetime(parse, Get(m.rows[i], "DT_OCOR")))
  {
  }

  /** Steps 2 to 6 write neither date column step 7 reads. */
  lemma DatesNotMiddle()
    ensures "DT_OCOR" !in MIDDLE_COLUMNS && "DT_NOTIFIC" !in MIDDLE_COLUMNS
  {
    assert "DT_OCOR"[0] == 'D' && "DT_NOTIFIC"[0] == 'D';
  }

  /** Step 1 does not write DT_OCOR. */
  lemma OccurrenceNotDated()
    ensures "DT_OCOR" !in {"DT_NOTIFIC", "ANO_NOTIFIC"}
  {
    assert |"DT_OCOR"| == 7;
  }

  /** Steps 8 to 10 do not write the column step 7 writes. */
  lemma DelayNotClassified()
    ensures "TEMPO_OCOR_DENUNCIA" !in CLASSIFIED_COLUMNS
  {
    assert |"TEMPO_OCOR_DENUNCIA"| == 19;
  }

  /** The delay of step 7 is computed from the dates step 1 and step 7 parse, and survives. */
  lemma DelaySurvives(parse: string -> Option<Stamp>, f: Frame, d: Frame, m: Frame, e: Frame, g: Frame, i: nat)
    requires i < |f.rows|
    requires Derives(f, d, {"DT_NOTIFIC", "ANO_NOTIFIC"})
    requires Get(d.rows[i], "DT_NOTIFIC") == ToDatetime(parse, Get(f.rows[i], "DT_NOTIFIC"))
    requires Derives(d, m, MIDDLE_COLUMNS)
    requires i < |e.rows|
    requires Get(e.rows[i], "TEMPO_OCOR_DENUNCIA") ==
               ReportDelay(Get(m.rows[i], "DT_NOTIFIC"), ToDatetime(parse, Get(m.rows[i], "DT_OCOR")))
    requires Derives(e, g, CLASSIFIED_COLUMNS)
    ensures Get(g.rows[i], "TEMPO_OCOR_DENUNCIA") ==
              ReportDelay(ToDatetime(parse, Get(f.rows[i], "DT_NOTIFIC")), ToDatetime(parse, Get(f.rows[i], "DT_OCOR")))
  {
    OccurrenceNotDated();
    SameAtOfDerives(f, d, {"DT_NOTIFIC", "ANO_NOTIFIC"}, "DT_OCOR", i);
    DatesNotMiddle();
    SameAtOfDerives(d, m, MIDDLE_COLUMNS, "DT_OCOR", i);
    SameAtOfDerives(d, m, MIDDLE_COLUMNS, "DT_NOTIFIC", i);
    DelayNotClassified();
    SameAtOfDerives(e, g, CLASSIFIED_COLUMNS, "TEMPO_OCOR_DENUNCIA", i);
  }

  /**
   * With both date columns in the source, TEMPO_OCOR_DENUNCIA of the result
   * is the delay between the two parsed dates: missing, or a whole number of
   * days between 0 and 3650.
   */
  lemma DerivedDelay(parse: string -> Option<Stamp>, names: map<string, string>, f: Frame, i: nat)
    requires "DT_OCOR" in f.columns && "DT_NOTIFIC" in f.columns && i < |f.rows|
    ensures var g := DerivedColumns(parse, names, f);
            && i < |g.rows|
            && Get(g.rows[i], "TEMPO_OCOR_DENUNCIA") ==
                 ReportDelay(ToDatetime(parse, Get(f.rows[i], "DT_NOTIFIC")), ToDatetime(parse, Get(f.rows[i], "DT_OCOR")))
            && var t := Get(g.rows[i], "TEMPO_OCOR_DENUNCIA");
               t.Null? || (t.Num? && 0 <= t.n <= MAX_DELAY_DAYS)
  {
    var d := DateStage(parse, f);
    DateStageDerives(parse, f);
    DateStageYear(parse, f, i);
    var m := SexStage(ViolenceTypeStage(PlacedFrame(names, d)));
    MiddleStagesDerive(names, d);
    DelayStageRow(parse, m, i);
    ClassifiedFrameDerives(DelayStage(parse, m));
    DelaySurvives(parse, f, d, m, DelayStage(parse, m), DerivedColumns(parse, names, f), i);
  }
}
