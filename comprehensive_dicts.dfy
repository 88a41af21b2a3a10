/**
 * SINANDataProcessorComprehensive: the code-to-label dictionaries and their
 * application to a table (load_dictionaries, apply_dictionaries).
 */
module ComprehensiveDicts {
  import opened Text
  import opened Frames

  type Dict = map<string, string>

  // ---------------------------------------------------------------------
  // The fixed dictionaries

  /** The yes/no map of the VIOL_* flags and AUTOR_ALCO, whose 'no' label is 'No'. */
  const YES_NO_SHORT: Dict := map["1" := "Sim", "2" := "No", "9" := "Ignorado", "" := "Branco"]
  /** The yes/no map of REL_TRAB, REDE_SAU, REDE_EDUCA and the other REL_* flags. */
  const YES_NO: Dict := map["1" := "Sim", "2" := "Não", "9" := "Ignorado", "" := "Branco"]
  const CS_SEXO_DICT: Dict := map["1" := "Masculino", "2" := "Feminino", "9" := "Ignorado", "" := "Branco"]
  const AUTOR_SEXO_DICT: Dict :=
    map["1" := "Masculino", "2" := "Feminino", "9" := "Ignorado", "3" := "Outros", "" := "Branco"]
  const AUTOR_ALCO_DICT: Dict :=
    map["1" := "Sim", "2" := "No", "9" := "Ignorado", "3" := "Não se aplica", "" := "Branco"]
  const LOCAL_OCOR_DICT: Dict := map[
    "01" := "Residência", "02" := "Habitação coletiva", "03" := "Escola",
    "04" := "Local de prática esportiva", "05" := "Bar ou similar", "06" := "Via pública",
    "07" := "Comércio e serviços", "08" := "Industrias e construção", "09" := "Outros",
    "99" := "Ignorado"]
  const CS_ESCOL_N_DICT: Dict := map[
    "00" := "Analfabeto", "01" := "1ª a 4ª série incompleta do EF", "02" := "4ª série completa do EF",
    "03" := "5ª à 8ª série incompleta do EF", "04" := "Ensino fundamental completo",
    "05" := "Ensino médio incompleto", "06" := "Ensino médio completo",
    "07" := "Educação superior incompleta", "08" := "Educação superior completa",
    "09" := "Ignorado", "10" := "Não se aplica"]
  const CS_RACA_DICT: Dict :=
    map["1" := "Branca", "2" := "Preta", "3" := "Amarela", "4" := "Parda", "5" := "Indígena", "9" := "Ignorado"]
  const SIT_CONJUG_DICT: Dict :=
    map["1" := "Solteiro", "2" := "Casado", "3" := "Viúvo", "4" := "Separado", "8" := "Não se aplica", "9" := "Ignorado"]
  const REL_CAT_DICT: Dict :=
    map["1" := "Empregado", "2" := "Autônomo", "8" := "Não se aplica", "9" := "Ignorado", "" := "Branco"]

  /** The fifteen dictionaries listed literally by load_dictionaries. */
  const BASE_DICTIONARIES: map<string, Dict> := map[
    "VIOL_SEXU" := YES_NO_SHORT, "VIOL_FISIC" := YES_NO_SHORT,
    "VIOL_PSICO" := YES_NO_SHORT, "VIOL_INFAN" := YES_NO_SHORT,
    "CS_SEXO" := CS_SEXO_DICT, "AUTOR_SEXO" := AUTOR_SEXO_DICT, "AUTOR_ALCO" := AUTOR_ALCO_DICT,
    "LOCAL_OCOR" := LOCAL_OCOR_DICT, "CS_ESCOL_N" := CS_ESCOL_N_DICT, "CS_RACA" := CS_RACA_DICT,
    "SIT_CONJUG" := SIT_CONJUG_DICT, "REL_TRAB" := YES_NO, "REL_CAT" := REL_CAT_DICT,
    "REDE_SAU" := YES_NO, "REDE_EDUCA" := YES_NO]

  // ---------------------------------------------------------------------
  // The generated age dictionary

  /** The SINAN age code of i years: '40' and the two-digit age. */
  function AgeCode(i: nat): string {
    "40" + ZeroPad(i, 2)
  }

  /** The decoded label of i years. */
  function AgeLabel(i: nat): string {
    if i == 0 then "menor de 01 ano"
    else if i == 1 then "01 ano"
    else ZeroPad(i, 2) + " anos"
  }

  /** The entries the age loop has written once it has handled the ages 1..n-1. */
  function AgeEntries(n: nat): Dict {
    AgeCodesInjective();
    Entries(AgeCode, AgeLabel, AgeOfCode, n)
  }

  /** The entries code(i) := name(i) for 1 <= i < n, under a key function that inv undoes. */
  function Entries(code: nat -> string, name: nat -> string, inv: string -> int, n: nat): Dict
    requires forall i :: inv(code(i)) == i
  {
    map i: nat | 1 <= i < n && inv(code(i)) == i :: code(i) := name(i)
  }

  /** The age dictionary: the loop's entries for 1..17, then '4000'. */
  function AgeDictionary(): Dict {
    AgeEntries(18)[AgeCode(0) := AgeLabel(0)]
  }

  /** The dictionaries once load_dictionaries has run. */
  function LoadedDictionaries(): map<string, Dict> {
    BASE_DICTIONARIES["NU_IDADE_N" := AgeDictionary()]
  }

  /** Builds the age dictionary with the loop of load_dictionaries. */
  method BuildAgeMapping() returns (m: Dict)
    ensures m == AgeDictionary()
    ensures |m| == 18
    ensures forall i :: 0 <= i < 18 ==> AgeCode(i) in m && m[AgeCode(i)] == AgeLabel(i)
  {
    m := map[];
    assert m == AgeEntries(1);
    for i := 1 to 18
      invariant m == AgeEntries(i)
    {
      AgeEntriesStep(i);
      if i == 1 {
        assert AgeCode(1) == "4001" && AgeLabel(1) == "01 ano";
        m := m["4001" := "01 ano"];
      } else {
        m := m["40" + ZeroPad(i, 2) := ZeroPad(i, 2) + " anos"];
      }
    }
    assert AgeCode(0) == "4000";
    m := m["4000" := "menor de 01 ano"];
    AgeDictionaryShape();
  }

  lemma PadTwo(i: nat)
    requires i < 100
    ensures |ZeroPad(i, 2)| == 2
  {
    if i >= 10 {
      assert NatToDecimal(i) == NatToDecimal(i / 10) + [DigitChar(i % 10)];
    }
  }

  /** The age an age code stands for: the number after its first two characters. */
  function AgeOfCode(k: string): int {
    if |k| >= 2 && forall x :: 2 <= x < |k| ==> IsDigit(k[x]) then DigitsValue(k[2..]) else -1
  }

  lemma AgeCodesInjective()
    ensures forall i: nat {:trigger AgeCode(i)} :: AgeOfCode(AgeCode(i)) == i
  {
    forall i: nat
      ensures AgeOfCode(AgeCode(i)) == i
    {
      assert AgeCode(i)[2..] == ZeroPad(i, 2);
      ZeroPadValue(i, 2);
    }
  }

  /** The loop's entries grow by the entry of age n at each step. */
  lemma AgeEntriesStep(n: nat)
    requires n >= 1
    ensures AgeEntries(n)[AgeCode(n) := AgeLabel(n)] == AgeEntries(n + 1)
  {
    AgeCodesInjective();
    EntriesStep(AgeCode, AgeLabel, AgeOfCode, n);
  }

  /** Adding entry n to the entries below n gives the entries below n + 1. */
  lemma EntriesStep(code: nat -> string, name: nat -> string, inv: string -> int, n: nat)
    requires forall i :: inv(code(i)) == i
    requires n >= 1
    ensures Entries(code, name, inv, n)[code(n) := name(n)] == Entries(code, name, inv, n + 1)
  {
    var a := Entries(code, name, inv, n)[code(n) := name(n)];
    var b := Entries(code, name, inv, n + 1);
    forall k | k in b
      ensures k in a && a[k] == b[k]
    {
      var j: nat :| 1 <= j < n + 1 && k == code(j);
      assert inv(k) == j;
    }
    forall k | k in a
      ensures k in b
    {
      if k != code(n) {
        var j: nat :| 1 <= j < n && k == code(j);
      }
    }
    assert a == b;
  }

  lemma {:induction false} AgeCodeCount(n: nat)
    ensures |set i | 0 <= i < n :: AgeCode(i)| == n
  {
    if n > 0 {
      AgeCodesInjective();
      var prev := set i | 0 <= i < n - 1 :: AgeCode(i);
      assert (set i | 0 <= i < n :: AgeCode(i)) == prev + {AgeCode(n - 1)};
      AgeCodeCount(n - 1);
    }
  }

  /** The age dictionary has the 18 codes 4000..4017, each with its label. */
  lemma AgeDictionaryShape()
    ensures forall k :: k in AgeDictionary() <==> exists i :: 0 <= i < 18 && k == AgeCode(i)
    ensures forall i :: 0 <= i < 18 ==> AgeDictionary()[AgeCode(i)] == AgeLabel(i)
    ensures |AgeDictionary()| == 18
  {
    AgeTableShape(18);
  }

  /** Decoding an age code yields its label. */
  lemma DecodeAgeCode(i: nat)
    requires i < 18
    ensures DecodeCell(AgeDictionary(), Str(AgeCode(i))) == Str(AgeLabel(i))
  {
    AgeDictionaryShape();
  }

  lemma AgeTableShape(n: nat)
    requires n >= 1
    ensures var d := AgeEntries(n)[AgeCode(0) := AgeLabel(0)];
      && (forall k :: k in d <==> exists i :: 0 <= i < n && k == AgeCode(i))
      && (forall i :: 0 <= i < n ==> d[AgeCode(i)] == AgeLabel(i))
      && |d| == n
  {
    var d := AgeEntries(n)[AgeCode(0) := AgeLabel(0)];
    AgeTableKeys(n);
    AgeTableValues(n);
    AgeCodeCount(n);
    assert |d| == |d.Keys|;
  }

  lemma AgeTableKeys(n: nat)
    requires n >= 1
    ensures (AgeEntries(n)[AgeCode(0) := AgeLabel(0)]).Keys == set i | 0 <= i < n :: AgeCode(i)
  {
    AgeCodesInjective();
    EntriesKeys(AgeCode, AgeLabel, AgeOfCode, n);
    var codes := set i | 0 <= i < n :: AgeCode(i);
    var later := set i: nat | 1 <= i < n :: AgeCode(i);
    assert codes == later + {AgeCode(0)} by {
      forall k | k in codes
        ensures k in later + {AgeCode(0)}
      {
        var j :| 0 <= j < n && k == AgeCode(j);
        if j != 0 {
          assert k in later;
        }
      }
    }
  }

  /** The keys of the entries below n are the codes of 1..n-1. */
  lemma EntriesKeys(code: nat -> string, name: nat -> string, inv: string -> int, n: nat)
    requires forall i :: inv(code(i)) == i
    ensures Entries(code, name, inv, n).Keys == set i: nat | 1 <= i < n :: code(i)
  {
    var e := Entries(code, name, inv, n);
    var codes := set i: nat | 1 <= i < n :: code(i);
    forall k | k in codes
      ensures k in e
    {
      var j: nat :| 1 <= j < n && k == code(j);
      assert inv(code(j)) == j;
    }
  }

  lemma AgeTableValues(n: nat)
    requires n >= 1
    ensures var d := AgeEntries(n)[AgeCode(0) := AgeLabel(0)];
            forall i :: 0 <= i < n ==> AgeCode(i) in d && d[AgeCode(i)] == AgeLabel(i)
  {
    AgeCodesInjective();
    EntriesValues(AgeCode, AgeLabel, AgeOfCode, n);
    forall i | 1 <= i < n
      ensures AgeCode(i) != AgeCode(0)
    {
      assert AgeOfCode(AgeCode(i)) == i;
    }
  }

  /** Entry i of the entries below n holds name(i). */
  lemma EntriesValues(code: nat -> string, name: nat -> string, inv: string -> int, n: nat)
    requires forall i :: inv(code(i)) == i
    ensures forall i: nat :: 1 <= i < n ==> code(i) in Entries(code, name, inv, n) && Entries(code, name, inv, n)[code(i)] == name(i)
  {
    forall i: nat | 1 <= i < n
      ensures code(i) in Entries(code, name, inv, n) && Entries(code, name, inv, n)[code(i)] == name(i)
    {
      assert inv(code(i)) == i;
    }
  }

  /** The eighteen labels the violence filter accepts, in age order. */
  const CHILD_AGES: seq<string> := [
    "menor de 01 ano", "01 ano", "02 anos", "03 anos", "04 anos", "05 anos",
    "06 anos", "07 anos", "08 anos", "09 anos", "10 anos", "11 anos",
    "12 anos", "13 anos", "14 anos", "15 anos", "16 anos", "17 anos"]

  /** The labels the age dictionary decodes to are exactly the filter's list, in age order. */
  lemma AgeLabelsAreChildAges()
    ensures forall i :: 0 <= i < 18 ==> AgeLabel(i) == CHILD_AGES[i]
  {
    AgeLabelsFrom2();
    AgeLabelsFrom4();
    AgeLabelsFrom6();
    AgeLabelsFrom8();
    AgeLabelsFrom10();
    AgeLabelsFrom12();
    AgeLabelsFrom14();
    AgeLabelsFrom16();
    forall i | 0 <= i < 18
      ensures AgeLabel(i) == CHILD_AGES[i]
    {
      if i == 0 {
      } else if i == 1 {
      } else if i == 2 {
      } else if i == 3 {
      } else if i == 4 {
      } else if i == 5 {
      } else if i == 6 {
      } else if i == 7 {
      } else if i == 8 {
      } else if i == 9 {
      } else if i == 10 {
      } else if i == 11 {
      } else if i == 12 {
      } else if i == 13 {
      } else if i == 14 {
      } else if i == 15 {
      } else if i == 16 {
      }
    }
  }

  lemma AgeLabelsFrom2()
    ensures AgeLabel(2) == CHILD_AGES[2] && AgeLabel(3) == CHILD_AGES[3]
  {
    assert AgeLabel(2) == CHILD_AGES[2];
  }

  lemma AgeLabelsFrom4()
    ensures AgeLabel(4) == CHILD_AGES[4] && AgeLabel(5) == CHILD_AGES[5]
  {
    assert AgeLabel(4) == CHILD_AGES[4];
  }

  lemma AgeLabelsFrom6()
    ensures AgeLabel(6) == CHILD_AGES[6] && AgeLabel(7) == CHILD_AGES[7]
  {
    assert AgeLabel(6) == CHILD_AGES[6];
  }

  lemma AgeLabelsFrom8()
    ensures AgeLabel(8) == CHILD_AGES[8] && AgeLabel(9) == CHILD_AGES[9]
  {
    assert AgeLabel(8) == CHILD_AGES[8];
  }

  lemma AgeLabelsFrom10()
    ensures AgeLabel(10) == CHILD_AGES[10] && AgeLabel(11) == CHILD_AGES[11]
  {
    assert AgeLabel(10) == CHILD_AGES[10];
  }

  lemma AgeLabelsFrom12()
    ensures AgeLabel(12) == CHILD_AGES[12] && AgeLabel(13) == CHILD_AGES[13]
  {
    assert AgeLabel(12) == CHILD_AGES[12];
  }

  lemma AgeLabelsFrom14()
    ensures AgeLabel(14) == CHILD_AGES[14] && AgeLabel(15) == CHILD_AGES[15]
  {
    assert AgeLabel(14) == CHILD_AGES[14];
  }

  lemma AgeLabelsFrom16()
    ensures AgeLabel(16) == CHILD_AGES[16] && AgeLabel(17) == CHILD_AGES[17]
  {
    assert AgeLabel(16) == CHILD_AGES[16];
  }

  /** A dictionary none of whose labels is itself a code. */
  predicate LabelsAreNotCodes(d: Dict) {
    forall k :: k in d ==> d[k] !in d
  }

  lemma AgeLabelHasSpace(i: nat)
    ensures ' ' in AgeLabel(i)
  {
    if i >= 2 {
      var z := ZeroPad(i, 2);
      assert (z + " anos")[|z|] == ' ';
    } else if i == 1 {
      assert AgeLabel(i)[2] == ' ';
    } else {
      assert AgeLabel(i)[5] == ' ';
    }
  }

  lemma AgeCodeDigits(j: nat)
    ensures ' ' !in AgeCode(j)
  {
    var z := ZeroPad(j, 2);
    assert forall x :: 0 <= x < |AgeCode(j)| ==> IsDigit(AgeCode(j)[x]) by {
      assert AgeCode(j) == "40" + z;
    }
  }

  lemma AgeDictionaryLabelsAreNotCodes()
    ensures LabelsAreNotCodes(AgeDictionary())
  {
    AgeDictionaryShape();
    var d := AgeDictionary();
    forall k | k in d
      ensures d[k] !in d
    {
      var i :| 0 <= i < 18 && k == AgeCode(i);
      AgeLabelHasSpace(i);
      if d[k] in d {
        var j :| 0 <= j < 18 && d[k] == AgeCode(j);
        AgeCodeDigits(j);
        assert false;
      }
    }
  }

  lemma YesNoShortLabelsAreNotCodes()
    ensures LabelsAreNotCodes(YES_NO_SHORT)
  {
  }

  lemma YesNoLabelsAreNotCodes()
    ensures LabelsAreNotCodes(YES_NO)
  {
  }

  lemma CsSexoLabelsAreNotCodes()
    ensures LabelsAreNotCodes(CS_SEXO_DICT)
  {
  }

  lemma AutorSexoLabelsAreNotCodes()
    ensures LabelsAreNotCodes(AUTOR_SEXO_DICT)
  {
  }

  lemma AutorAlcoLabelsAreNotCodes()
    ensures LabelsAreNotCodes(AUTOR_ALCO_DICT)
  {
  }

  lemma CsRacaLabelsAreNotCodes()
    ensures LabelsAreNotCodes(CS_RACA_DICT)
  {
  }

  lemma SitConjugLabelsAreNotCodes()
    ensures LabelsAreNotCodes(SIT_CONJUG_DICT)
  {
  }

  lemma RelCatLabelsAreNotCodes()
    ensures LabelsAreNotCodes(REL_CAT_DICT)
  {
  }

  lemma LocalOcorLabelsAreNotCodes()
    ensures LabelsAreNotCodes(LOCAL_OCOR_DICT)
  {
  }

  lemma CsEscolNLabelsAreNotCodes()
    ensures LabelsAreNotCodes(CS_ESCOL_N_DICT)
  {
  }

  /** No label of any dictionary load_dictionaries builds is one of its codes. */
  lemma LoadedLabelsAreNotCodes()
    ensures forall name :: name in LoadedDictionaries() ==> LabelsAreNotCodes(LoadedDictionaries()[name])
  {
    forall name | name in LoadedDictionaries()
      ensures LabelsAreNotCodes(LoadedDictionaries()[name])
    {
      if name == "NU_IDADE_N" {
        AgeDictionaryLabelsAreNotCodes();
      } else {
        BaseLabelsAreNotCodes(name);
      }
    }
  }

  /** The same for the fifteen dictionaries listed literally. */
  lemma BaseLabelsAreNotCodes(name: string)
    requires name in BASE_DICTIONARIES
    ensures LabelsAreNotCodes(BASE_DICTIONARIES[name])
  {
    BaseDictionariesListed(name);
    YesNoShortLabelsAreNotCodes();
    YesNoLabelsAreNotCodes();
    CsSexoLabelsAreNotCodes();
    AutorSexoLabelsAreNotCodes();
    AutorAlcoLabelsAreNotCodes();
    CsRacaLabelsAreNotCodes();
    SitConjugLabelsAreNotCodes();
    RelCatLabelsAreNotCodes();
    LocalOcorLabelsAreNotCodes();
    CsEscolNLabelsAreNotCodes();
  }

  /** Every literally listed dictionary is one of the eleven tables. */
  lemma BaseDictionariesListed(name: string)
    requires name in BASE_DICTIONARIES
    ensures BASE_DICTIONARIES[name] in [YES_NO_SHORT, YES_NO, CS_SEXO_DICT, AUTOR_SEXO_DICT, AUTOR_ALCO_DICT,
                                        CS_RACA_DICT, SIT_CONJUG_DICT, REL_CAT_DICT, LOCAL_OCOR_DICT, CS_ESCOL_N_DICT]
  {
  }

  // ---------------------------------------------------------------------
  // Decoding a table

  /** One decoding step: a column and the dictionary applied to it. */
  datatype Decoding = Decoding(column: string, table: Dict)

  /** str(v) mapped through the dictionary, falling back to str(v). */
  function DecodeCell(d: Dict, v: Cell): (r: Cell)
    ensures r.Str?
    ensures CellText(v) in d ==> r.s == d[CellText(v)]
    ensures CellText(v) !in d ==> r.s == CellText(v)
  {
    var t := CellText(v);
    Str(if t in d then d[t] else t)
  }

  /** With labels that are not codes, decoding a decoded cell changes nothing. */
  lemma DecodeCellIdempotent(d: Dict, v: Cell)
    requires LabelsAreNotCodes(d)
    ensures DecodeCell(d, DecodeCell(d, v)) == DecodeCell(d, v)
  {
  }

  /** data[c] = data[c].astype(str).map(table).fillna(data[c].astype(str)). */
  function DecodeColumn(g: Frame, c: string, table: Dict): Frame {
    MapColumn(g, c, r => DecodeCell(table, Get(r, c)))
  }

  function Step(g: Frame, d: Decoding): Frame {
    if d.column in g.columns then DecodeColumn(g, d.column, d.table) else g
  }

  /** The decoding steps applied in order. */
  function ApplyPlan(f: Frame, plan: seq<Decoding>): Frame {
    if plan == [] then f else Step(ApplyPlan(f, plan[..|plan| - 1]), plan[|plan| - 1])
  }

  /** The columns of apply_dictionaries' mapping table, in its order; ID_OCUPA_N has no dictionary. */
  const COLUMN_MAPPINGS: seq<string> := [
    "CS_ESCOL_N", "CS_RACA", "ID_OCUPA_N", "SIT_CONJUG", "VIOL_SEXU", "VIOL_FISIC",
    "VIOL_PSICO", "VIOL_INFAN", "NU_IDADE_N", "CS_SEXO", "LOCAL_OCOR", "AUTOR_SEXO",
    "AUTOR_ALCO", "REL_TRAB", "REL_CAT", "REDE_SAU", "REDE_EDUCA"]

  /** The steps of the first loop: the mapped columns that have a dictionary. */
  function MappingPlan(dicts: map<string, Dict>, cols: seq<string>): seq<Decoding> {
    if cols == [] then []
    else
      MappingPlan(dicts, cols[..|cols| - 1])
      + (if cols[|cols| - 1] in dicts then [Decoding(cols[|cols| - 1], dicts[cols[|cols| - 1]])] else [])
  }

  /** A relationship flag column of the second loop: REL_* other than REL_TRAB and REL_CAT. */
  predicate IsRelFlag(c: string) {
    StartsWith(c, "REL_") && c != "REL_TRAB" && c != "REL_CAT"
  }

  /** The REL_* columns other than REL_TRAB and REL_CAT, in column order. */
  function RelColumns(cols: seq<string>): (r: seq<string>)
    ensures |r| <= |cols|
    ensures forall c :: c in r <==> c in cols && IsRelFlag(c)
  {
    if cols == [] then []
    else
      (if IsRelFlag(cols[0]) then [cols[0]] else [])
      + RelColumns(cols[1..])
  }

  /** Python's xs[:5]. */
  function FirstFive(xs: seq<string>): (r: seq<string>)
    ensures |r| <= 5 && r <= xs
  {
    if |xs| <= 5 then xs else xs[..5]
  }

  /** The steps of the second loop: the yes/no map on each of the given columns. */
  function RelPlan(cols: seq<string>): (plan: seq<Decoding>)
    ensures |plan| == |cols|
    ensures forall k :: 0 <= k < |cols| ==> plan[k] == Decoding(cols[k], YES_NO)
  {
    if cols == [] then [] else RelPlan(cols[..|cols| - 1]) + [Decoding(cols[|cols| - 1], YES_NO)]
  }

  lemma MappingPlanStep(dicts: map<string, Dict>, cols: seq<string>, k: nat)
    requires k < |cols|
    ensures MappingPlan(dicts, cols[..k + 1])
      == MappingPlan(dicts, cols[..k]) + (if cols[k] in dicts then [Decoding(cols[k], dicts[cols[k]])] else [])
  {
    assert cols[..k + 1][..k] == cols[..k];
    var plan := MappingPlan(dicts, cols[..k]);
    assert plan + [] == plan;
  }

  lemma ApplyPlanSnoc(f: Frame, plan: seq<Decoding>, d: Decoding)
    ensures ApplyPlan(f, plan + [d]) == Step(ApplyPlan(f, plan), d)
  {
    assert (plan + [d])[..|plan|] == plan;
  }

  /** What apply_dictionaries returns for the given dictionaries. */
  function DecodeFrame(dicts: map<string, Dict>, f: Frame): Frame {
    var mapped := ApplyPlan(f, MappingPlan(dicts, COLUMN_MAPPINGS));
    ApplyPlan(mapped, RelPlan(FirstFive(RelColumns(mapped.columns))))
  }

  // ---------------------------------------------------------------------
  // What decoding does to each cell

  function PlanColumns(plan: seq<Decoding>): (cols: seq<string>)
    ensures |cols| == |plan| && forall k :: 0 <= k < |plan| ==> cols[k] == plan[k].column
  {
    if plan == [] then [] else PlanColumns(plan[..|plan| - 1]) + [plan[|plan| - 1].column]
  }

  /** The dictionary the plan applies to column c, if any. */
  function PlanTable(plan: seq<Decoding>, c: string): (r: Option<Dict>)
    ensures r.Some? ==> exists k :: 0 <= k < |plan| && plan[k] == Decoding(c, r.value)
    ensures r.None? ==> forall k :: 0 <= k < |plan| ==> plan[k].column != c
  {
    if plan == [] then None
    else if plan[|plan| - 1].column == c then Some(plan[|plan| - 1].table)
    else PlanTable(plan[..|plan| - 1], c)
  }

  /** The value a plan gives a cell of column c. */
  function PlanCell(cols: seq<string>, plan: seq<Decoding>, c: string, v: Cell): Cell {
    if c in cols && PlanTable(plan, c).Some? then DecodeCell(PlanTable(plan, c).value, v) else v
  }

  /**
   * A plan that names each column once decodes, in a column of the table,
   * exactly the columns it names, each through its own dictionary.
   */
  lemma {:induction false} ApplyPlanCells(f: Frame, plan: seq<Decoding>)
    requires Distinct(PlanColumns(plan))
    ensures ApplyPlan(f, plan).columns == f.columns
    ensures |ApplyPlan(f, plan).rows| == |f.rows|
    ensures forall i, c :: 0 <= i < |f.rows| ==>
      Get(ApplyPlan(f, plan).rows[i], c) == PlanCell(f.columns, plan, c, Get(f.rows[i], c))
    ensures WellFormed(f) ==> forall i :: 0 <= i < |f.rows| ==> ApplyPlan(f, plan).rows[i].Keys == f.rows[i].Keys
  {
    if plan != [] {
      var init := plan[..|plan| - 1];
      var d := plan[|plan| - 1];
      assert PlanColumns(init) == PlanColumns(plan)[..|plan| - 1];
      ApplyPlanCells(f, init);
      var prev := ApplyPlan(f, init);
      assert forall k :: 0 <= k < |init| ==> init[k].column != d.column by {
        forall k | 0 <= k < |init|
          ensures init[k].column != d.column
        {
          assert PlanColumns(plan)[k] == init[k].column;
          assert PlanColumns(plan)[|plan| - 1] == d.column;
        }
      }
      assert PlanTable(init, d.column).None?;
      if d.column in prev.columns {
        var g := ApplyPlan(f, plan);
        forall i, c | 0 <= i < |f.rows|
          ensures Get(g.rows[i], c) == PlanCell(f.columns, plan, c, Get(f.rows[i], c))
        {
          if c != d.column {
            assert PlanTable(plan, c) == PlanTable(init, c);
          }
        }
        if WellFormed(f) {
          forall i | 0 <= i < |f.rows|
            ensures g.rows[i].Keys == f.rows[i].Keys
          {
            assert g.rows[i].Keys == prev.rows[i].Keys + {d.column};
          }
        }
      } else {
        forall i, c | 0 <= i < |f.rows|
          ensures Get(prev.rows[i], c) == PlanCell(f.columns, plan, c, Get(f.rows[i], c))
        {
          if c != d.column {
            assert PlanTable(plan, c) == PlanTable(init, c);
          }
        }
      }
    }
  }

  /** Running two plans one after the other is running their concatenation. */
  lemma {:induction false} ApplyPlanAppend(f: Frame, p: seq<Decoding>, q: seq<Decoding>)
    ensures ApplyPlan(ApplyPlan(f, p), q) == ApplyPlan(f, p + q)
  {
    if q == [] {
      assert p + q == p;
    } else {
      var init := q[..|q| - 1];
      ApplyPlanAppend(f, p, init);
      assert (p + q)[..|p + q| - 1] == p + init;
    }
  }

  lemma {:induction false} PlanColumnsAppend(p: seq<Decoding>, q: seq<Decoding>)
    ensures PlanColumns(p + q) == PlanColumns(p) + PlanColumns(q)
  {
  }

  /** The table of a column in two concatenated plans with disjoint columns. */
  lemma {:induction false} PlanTableAppend(p: seq<Decoding>, q: seq<Decoding>, c: string)
    ensures PlanTable(p + q, c) == if PlanTable(q, c).Some? then PlanTable(q, c) else PlanTable(p, c)
  {
    if q != [] {
      assert (p + q)[..|p + q| - 1] == p + q[..|q| - 1];
      PlanTableAppend(p, q[..|q| - 1], c);
    } else {
      assert p + q == p;
    }
  }

  lemma {:induction false} MappingPlanTable(dicts: map<string, Dict>, cols: seq<string>, c: string)
    ensures PlanTable(MappingPlan(dicts, cols), c) == if c in cols && c in dicts then Some(dicts[c]) else None
  {
    if cols != [] {
      var init := cols[..|cols| - 1];
      var last := cols[|cols| - 1];
      MappingPlanTable(dicts, init, c);
      var extra: seq<Decoding> := if last in dicts then [Decoding(last, dicts[last])] else [];
      PlanTableAppend(MappingPlan(dicts, init), extra, c);
      assert c in cols <==> c in init || c == last by {
        assert cols == init + [last];
      }
    }
  }

  lemma {:induction false} MappingPlanColumns(dicts: map<string, Dict>, cols: seq<string>)
    ensures forall x :: x in PlanColumns(MappingPlan(dicts, cols)) ==> x in cols
  {
    if cols != [] {
      var init := cols[..|cols| - 1];
      var last := cols[|cols| - 1];
      MappingPlanColumns(dicts, init);
      var extra: seq<Decoding> := if last in dicts then [Decoding(last, dicts[last])] else [];
      PlanColumnsAppend(MappingPlan(dicts, init), extra);
      assert forall x :: x in init ==> x in cols;
    }
  }

  lemma DistinctInit<T>(xs: seq<T>)
    requires Distinct(xs) && xs != []
    ensures Distinct(xs[..|xs| - 1]) && xs[|xs| - 1] !in xs[..|xs| - 1]
  {
  }

  lemma {:induction false} MappingPlanDistinct(dicts: map<string, Dict>, cols: seq<string>)
    requires Distinct(cols)
    ensures Distinct(PlanColumns(MappingPlan(dicts, cols)))
  {
    if cols != [] {
      var init := cols[..|cols| - 1];
      var last := cols[|cols| - 1];
      DistinctInit(cols);
      MappingPlanDistinct(dicts, init);
      MappingPlanColumns(dicts, init);
      var p := PlanColumns(MappingPlan(dicts, init));
      var extra: seq<Decoding> := if last in dicts then [Decoding(last, dicts[last])] else [];
      PlanColumnsAppend(MappingPlan(dicts, init), extra);
      var all := p + PlanColumns(extra);
      forall i, j | 0 <= i < j < |all|
        ensures all[i] != all[j]
      {
        if j >= |p| {
          assert all[j] == last;
          assert all[i] in p;
        }
      }
    }
  }

  lemma {:induction false} RelPlanTable(cols: seq<string>, c: string)
    ensures PlanColumns(RelPlan(cols)) == cols
    ensures PlanTable(RelPlan(cols), c) == if c in cols then Some(YES_NO) else None
  {
    var plan := RelPlan(cols);
    if PlanTable(plan, c).Some? {
      var k :| 0 <= k < |plan| && plan[k] == Decoding(c, PlanTable(plan, c).value);
      assert cols[k] == c;
    }
    if c in cols {
      var k :| 0 <= k < |cols| && cols[k] == c;
      assert plan[k].column == c;
    }
  }

  /** None of the mapped columns is a flag of the second loop. */
  lemma MappedColumnsAreNotFlags()
    ensures forall c :: c in COLUMN_MAPPINGS ==> !IsRelFlag(c)
  {
    forall k | 0 <= k < |COLUMN_MAPPINGS|
      ensures !IsRelFlag(COLUMN_MAPPINGS[k])
    {
      var c := COLUMN_MAPPINGS[k];
      if k == 13 || k == 14 {
      } else if k == 15 || k == 16 {
        assert c[2] == 'D';
      } else {
        assert c[0] != 'R';
      }
    }
  }

  /** The mapped columns are distinct. */
  lemma MappedColumnsDistinct()
    ensures Distinct(COLUMN_MAPPINGS)
  {
  }

  lemma DistinctFilters(cols: seq<string>)
    requires Distinct(cols)
    ensures Distinct(RelColumns(cols))
    ensures Distinct(FirstFive(RelColumns(cols)))
  {
    if cols != [] {
      assert Distinct(cols[1..]) by {
        forall i, j | 0 <= i < j < |cols| - 1
          ensures cols[1..][i] != cols[1..][j]
        {
          assert cols[1..][i] == cols[i + 1] && cols[1..][j] == cols[j + 1];
        }
      }
      DistinctFilters(cols[1..]);
    }
    var r := RelColumns(cols);
    var five := FirstFive(r);
    forall i, j | 0 <= i < j < |five|
      ensures five[i] != five[j]
    {
      assert five[i] == r[i] && five[j] == r[j];
    }
  }

  /** The single plan that apply_dictionaries runs on a table with these columns. */
  function FullPlan(dicts: map<string, Dict>, cols: seq<string>): seq<Decoding> {
    MappingPlan(dicts, COLUMN_MAPPINGS) + RelPlan(FirstFive(RelColumns(cols)))
  }

  /** The dictionary the full plan applies to each column. */
  lemma FullPlanTable(dicts: map<string, Dict>, cols: seq<string>, c: string)
    ensures PlanTable(FullPlan(dicts, cols), c) ==
              if c in COLUMN_MAPPINGS && c in dicts then Some(dicts[c])
              else if c in FirstFive(RelColumns(cols)) then Some(YES_NO)
              else None
  {
    var p := MappingPlan(dicts, COLUMN_MAPPINGS);
    var rels := FirstFive(RelColumns(cols));
    MappedColumnsAreNotFlags();
    MappingPlanTable(dicts, COLUMN_MAPPINGS, c);
    PlanTableAppend(p, RelPlan(rels), c);
    RelPlanTable(rels, c);
  }

  /** The full plan names each column at most once. */
  lemma FullPlanDistinct(dicts: map<string, Dict>, cols: seq<string>)
    requires Distinct(cols)
    ensures Distinct(PlanColumns(FullPlan(dicts, cols)))
  {
    var p := MappingPlan(dicts, COLUMN_MAPPINGS);
    var rels := FirstFive(RelColumns(cols));
    var q := RelPlan(rels);
    MappedColumnsAreNotFlags();
    MappedColumnsDistinct();
    MappingPlanDistinct(dicts, COLUMN_MAPPINGS);
    MappingPlanColumns(dicts, COLUMN_MAPPINGS);
    DistinctFilters(cols);
    RelPlanTable(rels, "");
    PlanColumnsAppend(p, q);
    var pc := PlanColumns(p);
    var all := PlanColumns(p + q);
    assert all == pc + rels;
    forall i, j | 0 <= i < j < |all|
      ensures all[i] != all[j]
    {
      if i < |pc| && j >= |pc| {
        assert all[i] in pc;
        assert all[j] in rels;
      }
    }
  }

  lemma {:induction false} FullPlanShape(dicts: map<string, Dict>, f: Frame)
    ensures DecodeFrame(dicts, f) == ApplyPlan(f, FullPlan(dicts, f.columns))
  {
    var p := MappingPlan(dicts, COLUMN_MAPPINGS);
    var q := RelPlan(FirstFive(RelColumns(f.columns)));
    MappedColumnsDistinct();
    MappingPlanDistinct(dicts, COLUMN_MAPPINGS);
    ApplyPlanCells(f, p);
    ApplyPlanAppend(f, p, q);
  }

  /**
   * apply_dictionaries turns each mapped column that has a dictionary into
   * dict[str(v)] or str(v), the first five REL_* flags other than REL_TRAB
   * and REL_CAT into their yes/no label, and leaves every other column as it was.
   */
  lemma DecodeFrameCells(dicts: map<string, Dict>, f: Frame)
    requires WellFormed(f)
    ensures DecodeFrame(dicts, f).columns == f.columns
    ensures |DecodeFrame(dicts, f).rows| == |f.rows|
    ensures forall i, c :: 0 <= i < |f.rows| ==>
              Get(DecodeFrame(dicts, f).rows[i], c) ==
                if c in f.columns && c in COLUMN_MAPPINGS && c in dicts then DecodeCell(dicts[c], Get(f.rows[i], c))
                else if c in FirstFive(RelColumns(f.columns)) then DecodeCell(YES_NO, Get(f.rows[i], c))
                else Get(f.rows[i], c)
    ensures WellFormed(DecodeFrame(dicts, f))
  {
    FullPlanShape(dicts, f);
    FullPlanDistinct(dicts, f.columns);
    var plan := FullPlan(dicts, f.columns);
    ApplyPlanCells(f, plan);
    forall c
      ensures PlanTable(plan, c) ==
                if c in COLUMN_MAPPINGS && c in dicts then Some(dicts[c])
                else if c in FirstFive(RelColumns(f.columns)) then Some(YES_NO)
                else None
    {
      FullPlanTable(dicts, f.columns, c);
    }
    var g := DecodeFrame(dicts, f);
    forall i | 0 <= i < |g.rows|
      ensures g.rows[i].Keys == set c | c in g.columns
    {
    }
  }

  /** A column that has a dictionary in COLUMN_MAPPINGS is decoded through that dictionary. */
  lemma DecodeFrameMapped(dicts: map<string, Dict>, f: Frame, c: string, i: nat)
    requires WellFormed(f) && c in f.columns && c in COLUMN_MAPPINGS && c in dicts && i < |f.rows|
    ensures DecodeFrame(dicts, f).columns == f.columns && |DecodeFrame(dicts, f).rows| == |f.rows|
    ensures Get(DecodeFrame(dicts, f).rows[i], c) == DecodeCell(dicts[c], Get(f.rows[i], c))
  {
    DecodeFrameCells(dicts, f);
  }

  /** NU_IDADE_N is a mapped column and load_dictionaries gives it the age dictionary. */
  lemma AgeColumnLoaded()
    ensures "NU_IDADE_N" in COLUMN_MAPPINGS
    ensures "NU_IDADE_N" in LoadedDictionaries() && LoadedDictionaries()["NU_IDADE_N"] == AgeDictionary()
  {
    assert COLUMN_MAPPINGS[8] == "NU_IDADE_N";
  }

  /** Decoding with dictionaries whose labels are never codes is idempotent. */
  lemma DecodeFrameIdempotent(dicts: map<string, Dict>, f: Frame)
    requires WellFormed(f)
    requires forall name :: name in dicts ==> LabelsAreNotCodes(dicts[name])
    ensures DecodeFrame(dicts, DecodeFrame(dicts, f)) == DecodeFrame(dicts, f)
  {
    var g := DecodeFrame(dicts, f);
    DecodeFrameShape(dicts, f);
    DecodeFrameShape(dicts, g);
    var h := DecodeFrame(dicts, g);
    forall i | 0 <= i < |h.rows|
      ensures h.rows[i] == g.rows[i]
    {
      forall c | c in g.rows[i]
        ensures h.rows[i][c] == g.rows[i][c]
      {
        DecodeCellTwice(dicts, f, i, c);
      }
    }
  }

  /** Decoding keeps the columns, the number of rows and the shape of every row. */
  lemma DecodeFrameShape(dicts: map<string, Dict>, f: Frame)
    requires WellFormed(f)
    ensures DecodeFrame(dicts, f).columns == f.columns
    ensures |DecodeFrame(dicts, f).rows| == |f.rows|
    ensures WellFormed(DecodeFrame(dicts, f))
  {
    DecodeFrameCells(dicts, f);
  }

  /** One cell of a decoded frame is left as it is by a second decoding. */
  lemma DecodeCellTwice(dicts: map<string, Dict>, f: Frame, i: nat, c: string)
    requires WellFormed(f) && i < |f.rows|
    requires forall name :: name in dicts ==> LabelsAreNotCodes(dicts[name])
    ensures |DecodeFrame(dicts, f).rows| == |f.rows|
    ensures |DecodeFrame(dicts, DecodeFrame(dicts, f)).rows| == |f.rows|
    ensures Get(DecodeFrame(dicts, DecodeFrame(dicts, f)).rows[i], c) == Get(DecodeFrame(dicts, f).rows[i], c)
  {
    var g := DecodeFrame(dicts, f);
    DecodeFrameCells(dicts, f);
    DecodeFrameCells(dicts, g);
    YesNoLabelsAreNotCodes();
    if c in f.columns && c in COLUMN_MAPPINGS && c in dicts {
      DecodeCellIdempotent(dicts[c], Get(f.rows[i], c));
    } else if c in FirstFive(RelColumns(f.columns)) {
      DecodeCellIdempotent(YES_NO, Get(f.rows[i], c));
    }
  }

  /** In particular, apply_dictionaries after load_dictionaries is idempotent. */
  lemma LoadedDecodeIdempotent(f: Frame)
    requires WellFormed(f)
    ensures DecodeFrame(LoadedDictionaries(), DecodeFrame(LoadedDictionaries(), f)) == DecodeFrame(LoadedDictionaries(), f)
  {
    LoadedLabelsAreNotCodes();
    DecodeFrameIdempotent(LoadedDictionaries(), f);
  }

  // ---------------------------------------------------------------------
  // The processor object

  class Processor {
    var dictionaries: map<string, Dict>

    constructor()
      ensures dictionaries == map[]
    {
      dictionaries := map[];
    }

    /** Installs the fifteen literal dictionaries and the generated age dictionary. */
    method LoadDictionaries()
      modifies this
      ensures dictionaries == LoadedDictionaries()
    {
      dictionaries := BASE_DICTIONARIES;
      var ages := BuildAgeMapping();
      dictionaries := dictionaries["NU_IDADE_N" := ages];
    }

    /** Rewrites each mapped column through its dictionary, then the first five REL_* flags. */
    method ApplyDictionaries(data: Frame) returns (decoded: Frame)
      ensures decoded == DecodeFrame(dictionaries, data)
    {
      decoded := data;
      for k := 0 to |COLUMN_MAPPINGS|
        invariant decoded == ApplyPlan(data, MappingPlan(dictionaries, COLUMN_MAPPINGS[..k]))
      {
        var column := COLUMN_MAPPINGS[k];
        MappingPlanStep(dictionaries, COLUMN_MAPPINGS, k);
        if column in dictionaries {
          ApplyPlanSnoc(data, MappingPlan(dictionaries, COLUMN_MAPPINGS[..k]), Decoding(column, dictionaries[column]));
        }
        ghost var plan := MappingPlan(dictionaries, COLUMN_MAPPINGS[..k]);
        if column in decoded.columns && column in dictionaries {
          decoded := DecodeColumn(decoded, column, dictionaries[column]);
        } else if column in dictionaries {
          assert MappingPlan(dictionaries, COLUMN_MAPPINGS[..k + 1]) == plan + [Decoding(column, dictionaries[column])];
          assert ApplyPlan(data, plan + [Decoding(column, dictionaries[column])]) == decoded;
        } else {
          assert MappingPlan(dictionaries, COLUMN_MAPPINGS[..k + 1]) == plan;
        }
      }
      assert COLUMN_MAPPINGS[..|COLUMN_MAPPINGS|] == COLUMN_MAPPINGS;
      ghost var mapped := decoded;
      var relColumns := FirstFive(RelColumns(decoded.columns));
      for k := 0 to |relColumns|
        invariant decoded == ApplyPlan(mapped, RelPlan(relColumns[..k]))
      {
        var column := relColumns[k];
        assert relColumns[..k + 1][..k] == relColumns[..k];
        ApplyPlanSnoc(mapped, RelPlan(relColumns[..k]), Decoding(column, YES_NO));
        if column in decoded.columns {
          decoded := DecodeColumn(decoded, column, YES_NO);
        }
      }
      assert relColumns[..|relColumns|] == relColumns;
    }
  }
}
