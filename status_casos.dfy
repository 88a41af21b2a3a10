/**
 * scripts/analise_status_casos.py: the two classifiers of the case-status
 * column EVOLUCAO, the mapping the dashboard uses now and the improved one
 * the script suggests for the first fifty distinct values.
 */
module StatusCasos {
  import opened Text
  import opened Frames

  /** The statuses the two mappings give. */
  datatype Status = NotInformed | Closed | Abandoned | Ignored | OtherCode(n: nat) | Other(s: string)

  /** The text each mapping writes for a status. */
  function Label(st: Status): string {
    match st
    case NotInformed => "Não informado"
    case Closed => "Encerrado"
    case Abandoned => "Abandonado"
    case Ignored => "Ignorado"
    case OtherCode(n) => "Outro (codigo " + NatToDecimal(n) + ")"
    case Other(s) => "Outro (" + s + ")"
  }

  /** How many distinct values the suggested mapping looks at. */
  const SUGGEST_LIMIT: nat := 50

  /** str(val).strip().upper(). */
  function Normalised(v: Cell): string {
    Upper(Strip(CellText(v)))
  }

  // ---------------------------------------------------------------------
  // The current mapping

  /** The if/elif chain of map_evolucao_atual on the normalised text. */
  function CurrentOf(s: string): Status {
    if s in ["Y04", "Y04.0", "4"] then Closed
    else if s in ["Y08", "Y08.0", "8"] then Abandoned
    else if s in ["Y09", "Y09.0", "9"] then Ignored
    else Other(s)
  }

  /** map_evolucao_atual: missing and empty values are not informed. */
  function CurrentStatus(v: Cell): (st: Status)
    ensures v.Null? || v == Str("") ==> st == NotInformed
  {
    if v.Null? || v == Str("") then NotInformed else CurrentOf(Normalised(v))
  }

  function CurrentLabel(v: Cell): string {
    Label(CurrentStatus(v))
  }

  /**
   * A value is closed, abandoned or ignored exactly when its normalised text
   * is one of the three codes of that status; anything else is reported as
   * other with its normalised text, and nothing is not informed.
   */
  lemma CurrentCodes(s: string)
    ensures CurrentOf(s) == Closed <==> s in ["Y04", "Y04.0", "4"]
    ensures CurrentOf(s) == Abandoned <==> s in ["Y08", "Y08.0", "8"]
    ensures CurrentOf(s) == Ignored <==> s in ["Y09", "Y09.0", "9"]
    ensures CurrentOf(s) != NotInformed && !CurrentOf(s).OtherCode?
    ensures CurrentOf(s).Other? ==> CurrentOf(s).s == s
  {
  }

  /** Only the exact empty string is empty: a blank value is reported as other with empty text. */
  lemma CurrentBlank()
    ensures CurrentStatus(Str(" ")) == Other("")
  {
    assert Strip(" ") == "";
  }

  // ---------------------------------------------------------------------
  // The suggested mapping

  /** The rules of the suggested mapping after the empty and NAN test, in their order. */
  function SuggestedOf(s: string): Status {
    if s in ["Y04", "Y04.0", "4", "04"] then Closed
    else if s in ["Y08", "Y08.0", "8", "08"] then Abandoned
    else if s in ["Y09", "Y09.0", "9", "09"] then Ignored
    else if StartsWith(s, "Y04") then Closed
    else if StartsWith(s, "Y08") then Abandoned
    else if StartsWith(s, "Y09") then Ignored
    else if IsDigits(s) then
      var num := DigitsValue(s);
      if num == 4 then Closed
      else if num == 8 then Abandoned
      else if num == 9 then Ignored
      else OtherCode(num)
    else Other(s)
  }

  /** The status the improved mapping suggests for one value. */
  function SuggestedStatus(v: Cell): (st: Status)
    ensures v.Null? ==> st == NotInformed
  {
    var s := Normalised(v);
    if s == "" || s == "NAN" || v.Null? then NotInformed else SuggestedOf(s)
  }

  function SuggestedLabel(v: Cell): string {
    Label(SuggestedStatus(v))
  }

  /** The suggestion agrees with the current mapping wherever the current one recognises the code. */
  lemma SuggestedRefinesCurrent(s: string)
    requires CurrentOf(s) in {Closed, Abandoned, Ignored}
    ensures s != "" && s != "NAN" && SuggestedOf(s) == CurrentOf(s)
  {
  }

  /** Codes starting Y04, Y08 or Y09 take that status, whatever follows. */
  lemma SuggestedPrefixes(s: string)
    ensures StartsWith(s, "Y04") ==> SuggestedOf(s) == Closed
    ensures StartsWith(s, "Y08") ==> SuggestedOf(s) == Abandoned
    ensures StartsWith(s, "Y09") ==> SuggestedOf(s) == Ignored
  {
    if |s| >= 3 && s[0] == 'Y' && s[1] == '0' {
      assert s[2] == '4' ==> s !in ["Y08", "Y08.0", "8", "08", "Y09", "Y09.0", "9", "09"];
      assert s[2] == '8' ==> s !in ["Y04", "Y04.0", "4", "04", "Y09", "Y09.0", "9", "09"];
      assert s[2] == '9' ==> s !in ["Y04", "Y04.0", "4", "04", "Y08", "Y08.0", "8", "08"];
    }
  }

  /** A digit string is classified by its value, whatever its leading zeros. */
  lemma SuggestedDigits(s: string)
    requires IsDigits(s)
    ensures var n := DigitsValue(s);
            && (n == 4 ==> SuggestedOf(s) == Closed)
            && (n == 8 ==> SuggestedOf(s) == Abandoned)
            && (n == 9 ==> SuggestedOf(s) == Ignored)
            && (n != 4 && n != 8 && n != 9 ==> SuggestedOf(s) == OtherCode(n))
  {
    assert IsDigit(s[0]);
    if s in ["4", "04"] {
      assert DigitsValue(s) == 4;
    } else if s in ["8", "08"] {
      assert DigitsValue(s) == 8;
    } else if s in ["9", "09"] {
      assert DigitsValue(s) == 9;
    }
  }

  // ---------------------------------------------------------------------
  // The loop over the distinct values

  /** Series.dropna(): the present values in order. */
  function NonNull(column: seq<Cell>): (r: seq<Cell>)
    ensures forall v :: v in r <==> v in column && !v.Null?
  {
    if column == [] then []
    else (if column[0].Null? then [] else [column[0]]) + NonNull(column[1..])
  }

  /** Series.unique(): each value once, in the order it first appears. */
  function Unique(column: seq<Cell>): (r: seq<Cell>)
    ensures forall v :: v in r <==> v in column
    ensures Distinct(r)
    decreases |column|
  {
    if column == [] then []
    else
      var init := Unique(column[..|column| - 1]);
      var last := column[|column| - 1];
      assert column == column[..|column| - 1] + [last];
      if last in init then init else init + [last]
  }

  /** The values the suggested mapping looks at: the first fifty distinct present values. */
  function SuggestedValues(column: seq<Cell>): (r: seq<Cell>)
    ensures |r| <= SUGGEST_LIMIT && Distinct(r)
    ensures forall v :: v in r ==> v in column && !v.Null?
  {
    var u := Unique(NonNull(column));
    if |u| <= SUGGEST_LIMIT then u
    else
      assert forall v :: v in u[..SUGGEST_LIMIT] ==> v in u;
      u[..SUGGEST_LIMIT]
  }

  /**
   * mapeamento_sugerido: the first fifty distinct values of the column, each
   * mapped to the one status the rules give it.
   */
  method SuggestMapping(column: seq<Cell>) returns (mapping: map<Cell, string>)
    ensures mapping.Keys == set v | v in SuggestedValues(column)
    ensures |mapping| <= SUGGEST_LIMIT
    ensures forall v :: v in mapping ==> mapping[v] == SuggestedLabel(v) && v in column && !v.Null?
  {
    var values := SuggestedValues(column);
    mapping := map[];
    for k := 0 to |values|
      invariant mapping.Keys == set v | v in values[..k]
      invariant forall v :: v in mapping ==> mapping[v] == SuggestedLabel(v)
    {
      assert values[..k + 1] == values[..k] + [values[k]];
      mapping := mapping[values[k] := SuggestedLabel(values[k])];
    }
    assert values[..|values|] == values;
    DistinctCard(values);
  }

  /** Distinct values make a set of the same size. */
  lemma {:induction false} DistinctCard(xs: seq<Cell>)
    requires Distinct(xs)
    ensures |set v | v in xs| == |xs|
  {
    if xs != [] {
      var n := |xs| - 1;
      DistinctCard(xs[..n]);
      assert (set v | v in xs) == (set v | v in xs[..n]) + {xs[n]};
      assert xs[n] !in xs[..n];
    }
  }
}
