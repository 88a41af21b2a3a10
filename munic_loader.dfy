/**
 * src/utils/munic_dict_loader.py: the municipality dictionary read from the
 * TABNET .cnv files. Each line holds a running number, a six-digit IBGE code,
 * the municipality's name and often the code once more, as in
 * "1  110001 Alta Floresta D'Oeste  110001". A file is its list of lines
 * (readlines); a file that cannot be opened is None and adds nothing.
 */
module MunicLoader {
  import opened Text
  import opened Frames

  datatype Entry = Entry(code: string, name: string)

  /** Names that stand for an unknown municipality, compared after lower-casing. */
  const IGNORED_NAMES: seq<string> := ["municipio ignorado", "ignorado", "município ignorado"]

  /** A token that is a municipality code: six digits. */
  predicate IsCode(t: string) {
    IsDigits(t) && |t| == 6
  }

  /** The index of the first code among the tokens, if there is one. */
  function FirstCode(parts: seq<string>): (r: Option<nat>)
    ensures r.Some? ==> r.value < |parts| && IsCode(parts[r.value])
    ensures r.Some? ==> forall j :: 0 <= j < r.value ==> !IsCode(parts[j])
    ensures r.None? ==> forall j :: 0 <= j < |parts| ==> !IsCode(parts[j])
  {
    if parts == [] then None
    else if IsCode(parts[0]) then Some(0)
    else match FirstCode(parts[1..])
      case None => None
      case Some(i) => Some(i + 1)
  }

  /** The tokens after the code, without a repeated code at the end. */
  function NameParts(after: seq<string>): seq<string> {
    if |after| > 0 && IsCode(after[|after| - 1]) then after[..|after| - 1] else after
  }

  /** The entry of a code and the tokens of its name, unless the name is empty or ignored. */
  function NamedEntry(code: string, nameParts: seq<string>): (e: Option<Entry>)
    ensures e.Some? ==> e.value.code == code && e.value.name != "" && Lower(e.value.name) !in IGNORED_NAMES
  {
    if nameParts == [] then None
    else
      var name := Strip(Join(" ", nameParts));
      if name != "" && Lower(name) !in IGNORED_NAMES then Some(Entry(code, name)) else None
  }

  /** The entry of a line's tokens: the first code and the tokens after it. */
  function EntryOf(parts: seq<string>): (e: Option<Entry>)
    ensures e.Some? ==> IsCode(e.value.code)
  {
    match FirstCode(parts)
    case None => None
    case Some(i) => NamedEntry(parts[i], NameParts(parts[i + 1..]))
  }

  /** What one line of a .cnv file contributes, if anything. */
  function ParseLine(line: string): (e: Option<Entry>)
    ensures e.Some? ==> IsCode(e.value.code)
  {
    var s := Strip(line);
    if StartsWith(s, ";") || s == "" then None
    else
      var parts := SplitWhitespace(s);
      if |parts| < 3 then None else EntryOf(parts)
  }

  /**
   * The token loop: the first code, and the tokens after it without a
   * repeated code at the end.
   */
  method FindCode(parts: seq<string>) returns (codigo: Option<string>, nameParts: seq<string>)
    ensures codigo.None? <==> FirstCode(parts).None?
    ensures codigo.Some? ==> var i := FirstCode(parts).value;
                             codigo.value == parts[i] && nameParts == NameParts(parts[i + 1..])
  {
    codigo := None;
    nameParts := [];
    var i := 0;
    while i < |parts|
      invariant 0 <= i <= |parts|
      invariant codigo.None?
      invariant forall j :: 0 <= j < i ==> !IsCode(parts[j])
    {
      if IsCode(parts[i]) {
        if codigo.None? {
          codigo := Some(parts[i]);
          nameParts := parts[i + 1..];
          if |nameParts| > 0 && IsCode(nameParts[|nameParts| - 1]) {
            nameParts := nameParts[..|nameParts| - 1];
          }
        }
        break;
      }
      i := i + 1;
    }
  }

  /** The body of the line loop: skip comments and blanks, split into tokens, find the code and the name. */
  method ParseEntry(line: string) returns (entry: Option<Entry>)
    ensures entry == ParseLine(line)
  {
    var s := Strip(line);
    if StartsWith(s, ";") || s == "" {
      return None;
    }
    var parts := SplitWhitespace(s);
    if |parts| < 3 {
      return None;
    }
    var codigo, nameParts := FindCode(parts);
    entry := None;
    if codigo.Some? && |codigo.value| == 6 && nameParts != [] {
      var name := Strip(Join(" ", nameParts));
      if name != "" && Lower(name) !in IGNORED_NAMES {
        entry := Some(Entry(codigo.value, name));
      }
    }
  }

  // ---------------------------------------------------------------------
  // What a line says

  /** Comment lines and blank lines add nothing. */
  lemma SkippedLine(line: string)
    requires Strip(line) == "" || StartsWith(Strip(line), ";")
    ensures ParseLine(line) == None
  {
  }

  /** A line of fewer than three tokens adds nothing. */
  lemma ShortLine(line: string)
    requires |SplitWhitespace(Strip(line))| < 3
    ensures ParseLine(line) == None
  {
  }

  /**
   * A line that adds an entry holds at least three tokens; its code is the
   * first six-digit token and its name the tokens after it, joined by single
   * spaces, minus a trailing code; the name is neither empty nor one of the
   * ignored names.
   */
  lemma ParsedLine(line: string)
    requires ParseLine(line).Some?
    ensures var e := ParseLine(line).value;
            var parts := SplitWhitespace(Strip(line));
            && |parts| >= 3
            && IsCode(e.code)
            && (exists i :: 0 <= i < |parts| && parts[i] == e.code && FirstCode(parts) == Some(i)
                  && e.name == Strip(Join(" ", NameParts(parts[i + 1..]))))
            && e.name != ""
            && Lower(e.name) !in IGNORED_NAMES
  {
    var parts := SplitWhitespace(Strip(line));
    var i := FirstCode(parts).value;
    assert parts[i] == ParseLine(line).value.code;
  }

  // ---------------------------------------------------------------------
  // Building the dictionary

  function AddEntry(d: map<string, string>, e: Option<Entry>): map<string, string> {
    if e.Some? then d[e.value.code := e.value.name] else d
  }

  /** The dictionary after the entries in order, a later one overwriting an earlier one. */
  function Apply(d: map<string, string>, es: seq<Option<Entry>>): map<string, string>
    decreases |es|
  {
    if es == [] then d else AddEntry(Apply(d, es[..|es| - 1]), es[|es| - 1])
  }

  /** What the lines of a file say, line by line. */
  function ParseAll(lines: seq<string>): (es: seq<Option<Entry>>)
    ensures |es| == |lines| && forall i :: 0 <= i < |lines| ==> es[i] == ParseLine(lines[i])
  {
    seq(|lines|, i requires 0 <= i < |lines| => ParseLine(lines[i]))
  }

  function FileEntries(file: Option<seq<string>>): seq<Option<Entry>> {
    match file
    case None => []
    case Some(lines) => ParseAll(lines)
  }

  /** What every readable file says, one file after the other. */
  function AllEntries(files: seq<Option<seq<string>>>): seq<Option<Entry>>
    decreases |files|
  {
    if files == [] then [] else AllEntries(files[..|files| - 1]) + FileEntries(files[|files| - 1])
  }

  /** The dictionary after reading every file in order. */
  function LoadAll(files: seq<Option<seq<string>>>): map<string, string>
    decreases |files|
  {
    if files == [] then map[] else Apply(LoadAll(files[..|files| - 1]), FileEntries(files[|files| - 1]))
  }

  /**
   * load_municipality_dict over the files the two globs found, in that order:
   * every line of every readable file in turn.
   */
  method LoadMunicipalityDict(files: seq<Option<seq<string>>>) returns (dict: map<string, string>)
    ensures dict == LoadAll(files)
  {
    dict := map[];
    for f := 0 to |files|
      invariant dict == LoadAll(files[..f])
    {
      assert files[..f + 1][..f] == files[..f];
      match files[f] {
        case None =>
        case Some(lines) =>
          dict := LoadLines(dict, lines);
      }
    }
    assert files[..|files|] == files;
  }

  /** The line loop over one file. */
  method LoadLines(start: map<string, string>, lines: seq<string>) returns (dict: map<string, string>)
    ensures dict == Apply(start, ParseAll(lines))
  {
    ghost var es := ParseAll(lines);
    dict := start;
    for k := 0 to |lines|
      invariant dict == Apply(start, es[..k])
    {
      var e := ParseEntry(lines[k]);
      ApplyStep(start, es, k, e);
      if e.Some? {
        dict := dict[e.value.code := e.value.name];
      }
    }
    assert es[..|lines|] == es;
  }

  lemma ApplyStep(d: map<string, string>, es: seq<Option<Entry>>, k: nat, e: Option<Entry>)
    requires k < |es| && es[k] == e
    ensures Apply(d, es[..k + 1]) == AddEntry(Apply(d, es[..k]), e)
  {
    assert es[..k + 1][..k] == es[..k];
  }

  /** Applying one list of entries after another is applying them together. */
  lemma {:induction false} ApplyAppend(d: map<string, string>, a: seq<Option<Entry>>, b: seq<Option<Entry>>)
    ensures Apply(d, a + b) == Apply(Apply(d, a), b)
    decreases |b|
  {
    if b != [] {
      var n := |b| - 1;
      assert (a + b)[..|a + b| - 1] == a + b[..n];
      assert (a + b)[|a + b| - 1] == b[n];
      ApplyAppend(d, a, b[..n]);
    } else {
      assert a + b == a;
    }
  }

  /** Reading the files one by one is reading all their lines as one list. */
  lemma {:induction false} LoadAllEntries(files: seq<Option<seq<string>>>)
    ensures LoadAll(files) == Apply(map[], AllEntries(files))
    decreases |files|
  {
    if files != [] {
      var init := files[..|files| - 1];
      LoadAllEntries(init);
      ApplyAppend(map[], AllEntries(init), FileEntries(files[|files| - 1]));
    }
  }

  /** No file, no entry. */
  lemma NoFiles()
    ensures LoadAll([]) == map[]
  {
  }

  predicate Codes(es: seq<Option<Entry>>) {
    forall j :: 0 <= j < |es| && es[j].Some? ==> IsCode(es[j].value.code)
  }

  lemma {:induction false} AllEntriesCodes(files: seq<Option<seq<string>>>)
    ensures Codes(AllEntries(files))
    decreases |files|
  {
    if files != [] {
      AllEntriesCodes(files[..|files| - 1]);
    }
  }

  /** Every key the entries add is a six-digit code. */
  lemma {:induction false} ApplyKeys(d: map<string, string>, es: seq<Option<Entry>>)
    requires Codes(es)
    ensures forall c :: c in Apply(d, es) ==> c in d || IsCode(c)
    decreases |es|
  {
    if es != [] {
      ApplyKeys(d, es[..|es| - 1]);
    }
  }

  /** Every key of the dictionary is a six-digit code. */
  lemma LoadAllKeys(files: seq<Option<seq<string>>>)
    ensures forall c :: c in LoadAll(files) ==> IsCode(c)
  {
    LoadAllEntries(files);
    AllEntriesCodes(files);
    ApplyKeys(map[], AllEntries(files));
  }

  predicate GivesCode(e: Option<Entry>, c: string) {
    e.Some? && e.value.code == c
  }

  /** A code no entry gives keeps its value from before. */
  lemma {:induction false} ApplyUntouched(d: map<string, string>, es: seq<Option<Entry>>, c: string)
    requires forall j :: 0 <= j < |es| ==> !GivesCode(es[j], c)
    ensures c in Apply(d, es) <==> c in d
    ensures c in d ==> Apply(d, es)[c] == d[c]
    decreases |es|
  {
    if es != [] {
      ApplyUntouched(d, es[..|es| - 1], c);
    }
  }

  /** The last entry giving a code decides its name. */
  lemma {:induction false} ApplyLastWins(d: map<string, string>, es: seq<Option<Entry>>, i: nat)
    requires i < |es| && es[i].Some?
    requires forall j :: i < j < |es| ==> !GivesCode(es[j], es[i].value.code)
    ensures es[i].value.code in Apply(d, es) && Apply(d, es)[es[i].value.code] == es[i].value.name
    decreases |es|
  {
    var n := |es| - 1;
    if i < n {
      ApplyLastWins(d, es[..n], i);
    }
  }

  /**
   * Across all files: a code is a key exactly when some line gives it, and
   * its name is the one the last such line gives.
   */
  lemma LoadAllLastWins(files: seq<Option<seq<string>>>, i: nat)
    requires i < |AllEntries(files)| && AllEntries(files)[i].Some?
    requires forall j :: i < j < |AllEntries(files)| ==> !GivesCode(AllEntries(files)[j], AllEntries(files)[i].value.code)
    ensures var e := AllEntries(files)[i].value;
            e.code in LoadAll(files) && LoadAll(files)[e.code] == e.name
  {
    LoadAllEntries(files);
    ApplyLastWins(map[], AllEntries(files), i);
  }

  /** A code no line of any file gives is not a key. */
  lemma LoadAllUntouched(files: seq<Option<seq<string>>>, c: string)
    requires forall j :: 0 <= j < |AllEntries(files)| ==> !GivesCode(AllEntries(files)[j], c)
    ensures c !in LoadAll(files)
  {
    LoadAllEntries(files);
    ApplyUntouched(map[], AllEntries(files), c);
  }
}
