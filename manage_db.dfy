/**
 * scripts/manage_db.py: the DuckDB file is cut into parts of 50 MB so that it
 * fits in git, and glued back together from the parts in name order.
 * The file system is a map from file names to bytes; the directory listing
 * the glob walks is a parameter, in whatever order the system gives it.
 */
module ManageDb {
  import opened Text
  import opened Frames

  /** CHUNK_SIZE: 50 * 1024 * 1024 bytes. */
  const CHUNK_SIZE: nat := 50 * 1024 * 1024

  /** The name every part file starts with, which the join's glob looks for. */
  const PART_PREFIX: string := "sinan.duckdb.part"

  datatype Part = Part(name: string, bytes: seq<bv8>)

  // ---------------------------------------------------------------------
  // Cutting into chunks

  function Min(a: nat, b: nat): nat {
    if a <= b then a else b
  }

  /** The successive results of f.read(size) from position pos until one comes back empty. */
  function ChunksFrom(data: seq<bv8>, pos: nat, size: nat): (chunks: seq<seq<bv8>>)
    requires size > 0
    ensures forall i :: 0 <= i < |chunks| ==> 0 < |chunks[i]| <= size
    ensures forall i :: 0 <= i < |chunks| - 1 ==> |chunks[i]| == size
    ensures pos >= |data| <==> chunks == []
    decreases |data| - pos
  {
    if pos >= |data| then []
    else
      var end := Min(pos + size, |data|);
      [data[pos..end]] + ChunksFrom(data, end, size)
  }

  /** The chunks of a whole file. */
  function Chunks(data: seq<bv8>, size: nat): seq<seq<bv8>>
    requires size > 0
  {
    ChunksFrom(data, 0, size)
  }

  /** The bytes of the chunks one after the other. */
  function Flatten(chunks: seq<seq<bv8>>): seq<bv8> {
    if chunks == [] then [] else chunks[0] + Flatten(chunks[1..])
  }

  /** Gluing the chunks gives back the bytes they were read from. */
  lemma {:induction false} FlattenChunks(data: seq<bv8>, pos: nat, size: nat)
    requires size > 0 && pos <= |data|
    ensures Flatten(ChunksFrom(data, pos, size)) == data[pos..]
    decreases |data| - pos
  {
    if pos < |data| {
      var end := Min(pos + size, |data|);
      FlattenChunks(data, end, size);
      assert data[pos..] == data[pos..end] + data[end..];
    }
  }

  /**
   * The number of parts is the size divided by the chunk size, rounded up:
   * k parts hold more than (k - 1) chunks' worth of bytes and at most k.
   */
  lemma {:induction false} ChunksCount(data: seq<bv8>, pos: nat, size: nat)
    requires size > 0 && pos <= |data|
    ensures var k := |ChunksFrom(data, pos, size)|;
            (k - 1) * size < |data| - pos <= k * size
    decreases |data| - pos
  {
    if pos + size < |data| {
      ChunksCount(data, pos + size, size);
      var k := |ChunksFrom(data, pos + size, size)|;
      assert (k + 1) * size == k * size + size;
      assert k * size == (k - 1) * size + size;
    }
  }

  lemma FlattenAppend(chunks: seq<seq<bv8>>, c: seq<bv8>)
    ensures Flatten(chunks + [c]) == Flatten(chunks) + c
  {
    if chunks != [] {
      assert (chunks + [c])[1..] == chunks[1..] + [c];
      FlattenAppend(chunks[1..], c);
    }
  }

  // ---------------------------------------------------------------------
  // Part names

  /** f"{db_path.name}.part{part_num:03d}". */
  function PartName(n: nat): string {
    PART_PREFIX + ZeroPad(n, 3)
  }

  lemma DecimalBelowThousand(n: nat)
    requires n < 1000
    ensures |NatToDecimal(n)| <= 3
  {
    if n >= 10 {
      assert NatToDecimal(n) == NatToDecimal(n / 10) + [DigitChar(n % 10)];
      if n / 10 >= 10 {
        assert NatToDecimal(n / 10) == NatToDecimal(n / 100) + [DigitChar(n / 10 % 10)];
      }
    }
  }

  /** Below a thousand parts the index has exactly three digits. */
  lemma PaddedIndexLength(n: nat)
    requires n < 1000
    ensures |ZeroPad(n, 3)| == 3
  {
    DecimalBelowThousand(n);
  }

  /** Below a thousand parts, the names sort in the order of their indexes. */
  lemma PartNameOrder(i: nat, j: nat)
    requires i < j < 1000
    ensures LexLess(PartName(i), PartName(j))
  {
    PaddedIndexLength(i);
    PaddedIndexLength(j);
    ZeroPadValue(i, 3);
    ZeroPadValue(j, 3);
    LexLessDigits(ZeroPad(i, 3), ZeroPad(j, 3));
    LexLessCommonPrefix(PART_PREFIX, ZeroPad(i, 3), ZeroPad(j, 3));
  }

  lemma PartNameMatches(n: nat)
    ensures StartsWith(PartName(n), PART_PREFIX)
  {
    assert PartName(n)[..|PART_PREFIX|] == PART_PREFIX;
  }

  /** The parts split writes: the chunks named from index k on. */
  function NamedFrom(chunks: seq<seq<bv8>>, k: nat): seq<Part> {
    if chunks == [] then [] else [Part(PartName(k), chunks[0])] + NamedFrom(chunks[1..], k + 1)
  }

  lemma {:induction false} NamedFromLength(chunks: seq<seq<bv8>>, k: nat)
    ensures |NamedFrom(chunks, k)| == |chunks|
  {
    if chunks != [] {
      NamedFromLength(chunks[1..], k + 1);
    }
  }

  lemma {:induction false} NamedFromAt(chunks: seq<seq<bv8>>, k: nat, i: nat)
    requires i < |chunks| && |NamedFrom(chunks, k)| == |chunks|
    ensures NamedFrom(chunks, k)[i] == Part(PartName(k + i), chunks[i])
  {
    if i > 0 {
      NamedFromLength(chunks[1..], k + 1);
      NamedFromAt(chunks[1..], k + 1, i - 1);
      assert k + 1 + (i - 1) == k + i;
    }
  }

  /** Part i of those named from k holds chunk i under the name of index k + i. */
  lemma NamedFromParts(chunks: seq<seq<bv8>>, k: nat)
    ensures |NamedFrom(chunks, k)| == |chunks|
    ensures forall i :: 0 <= i < |chunks| ==> NamedFrom(chunks, k)[i] == Part(PartName(k + i), chunks[i])
  {
    NamedFromLength(chunks, k);
    forall i | 0 <= i < |chunks|
      ensures NamedFrom(chunks, k)[i] == Part(PartName(k + i), chunks[i])
    {
      NamedFromAt(chunks, k, i);
    }
  }

  lemma NamedFromCons(c: seq<bv8>, chunks: seq<seq<bv8>>, k: nat)
    ensures NamedFrom([c] + chunks, k) == [Part(PartName(k), c)] + NamedFrom(chunks, k + 1)
  {
    assert ([c] + chunks)[1..] == chunks;
  }

  /** What split_database writes for a file holding data. */
  function SplitParts(data: seq<bv8>): seq<Part> {
    NamedFrom(Chunks(data, CHUNK_SIZE), 0)
  }

  /**
   * split_database: nothing without the database file; otherwise one part per
   * chunk read, named by its index.
   */
  method SplitDatabase(present: bool, data: seq<bv8>) returns (written: seq<Part>)
    ensures !present ==> written == []
    ensures present ==> written == SplitParts(data)
  {
    written := [];
    if present {
      written := ReadParts(data, CHUNK_SIZE);
    }
  }

  /** The read loop of split_database with chunks of the given size. */
  method ReadParts(data: seq<bv8>, size: nat) returns (written: seq<Part>)
    requires size > 0
    ensures written == NamedFrom(Chunks(data, size), 0)
  {
    written := [];
    var pos := 0;
    var partNum := 0;
    while true
      invariant pos <= |data|
      invariant written + NamedFrom(ChunksFrom(data, pos, size), partNum) == NamedFrom(Chunks(data, size), 0)
      decreases |data| - pos
    {
      var chunk := data[pos..Min(pos + size, |data|)];
      if chunk == [] {
        break;
      }
      var next := pos + |chunk|;
      var part := Part(PartName(partNum), chunk);
      assert ChunksFrom(data, pos, size) == [chunk] + ChunksFrom(data, next, size);
      NamedStep(written, chunk, ChunksFrom(data, next, size), partNum);
      written := written + [part];
      pos := next;
      partNum := partNum + 1;
    }
  }

  /** Writing one more part moves its chunk from the chunks still to name to the parts written. */
  lemma NamedStep(written: seq<Part>, chunk: seq<bv8>, rest: seq<seq<bv8>>, k: nat)
    ensures written + NamedFrom([chunk] + rest, k) == (written + [Part(PartName(k), chunk)]) + NamedFrom(rest, k + 1)
  {
    NamedFromCons(chunk, rest, k);
  }

  /** Split writes ceil(size / CHUNK_SIZE) parts, none for an empty file, all full but the last. */
  lemma SplitPartsShape(data: seq<bv8>)
    ensures var parts := SplitParts(data);
            && (|parts| - 1) * CHUNK_SIZE < |data| <= |parts| * CHUNK_SIZE
            && (data == [] <==> parts == [])
            && (forall i :: 0 <= i < |parts| - 1 ==> |parts[i].bytes| == CHUNK_SIZE)
            && (parts != [] ==> 0 < |parts[|parts| - 1].bytes| <= CHUNK_SIZE)
            && (forall i :: 0 <= i < |parts| ==> parts[i].name == PartName(i))
  {
    ChunksCount(data, 0, CHUNK_SIZE);
    NamedFromParts(Chunks(data, CHUNK_SIZE), 0);
  }

  // ---------------------------------------------------------------------
  // sorted(): insertion into a sorted list

  predicate LexLeq(a: string, b: string) {
    a == b || LexLess(a, b)
  }

  predicate Sorted(xs: seq<string>) {
    forall i, j :: 0 <= i < j < |xs| ==> LexLeq(xs[i], xs[j])
  }

  function Insert(x: string, xs: seq<string>): (r: seq<string>)
    ensures multiset(r) == multiset(xs) + multiset{x}
  {
    if xs == [] then [x]
    else if LexLess(xs[0], x) then
      assert xs == [xs[0]] + xs[1..];
      [xs[0]] + Insert(x, xs[1..])
    else [x] + xs
  }

  lemma {:induction false} InsertSorted(x: string, xs: seq<string>)
    requires Sorted(xs)
    ensures Sorted(Insert(x, xs))
  {
    if xs != [] {
      if LexLess(xs[0], x) {
        InsertSorted(x, xs[1..]);
        var tail := Insert(x, xs[1..]);
        forall y | y in tail
          ensures LexLeq(xs[0], y)
        {
          assert y in multiset(tail);
          if y != x {
            assert y in multiset(xs[1..]);
            var k :| 0 <= k < |xs[1..]| && xs[1..][k] == y;
            assert xs[k + 1] == y;
          }
        }
      } else {
        if x != xs[0] {
          LexLessTotal(x, xs[0]);
        }
        forall k | 0 <= k < |xs|
          ensures LexLeq(x, xs[k])
        {
          if k > 0 && x != xs[0] && xs[0] != xs[k] {
            LexLessTransitive(x, xs[0], xs[k]);
          }
        }
      }
    }
  }

  /** Python's sorted() on a list of names. */
  function SortNames(xs: seq<string>): (r: seq<string>)
    ensures multiset(r) == multiset(xs)
    ensures Sorted(r)
  {
    if xs == [] then []
    else
      var rest := SortNames(xs[1..]);
      InsertSorted(xs[0], rest);
      assert xs == [xs[0]] + xs[1..];
      Insert(xs[0], rest)
  }

  lemma LexLeqAntisymmetric(a: string, b: string)
    requires LexLeq(a, b) && LexLeq(b, a)
    ensures a == b
  {
    if a != b {
      LexLessAsymmetric(a, b);
      assert false;
    }
  }

  lemma SortedHead(xs: seq<string>, y: string)
    requires Sorted(xs) && y in xs
    ensures LexLeq(xs[0], y)
  {
    var i :| 0 <= i < |xs| && xs[i] == y;
  }

  /** Two sorted lists with the same elements are the same list. */
  lemma {:induction false} SortedUnique(xs: seq<string>, ys: seq<string>)
    requires Sorted(xs) && Sorted(ys) && multiset(xs) == multiset(ys)
    ensures xs == ys
  {
    if xs != [] {
      assert xs[0] in multiset(ys);
      assert ys[0] in multiset(xs);
      SortedHead(ys, xs[0]);
      SortedHead(xs, ys[0]);
      LexLeqAntisymmetric(xs[0], ys[0]);
      SortedTail(xs);
      SortedTail(ys);
      SortedUnique(xs[1..], ys[1..]);
    }
  }

  /** Dropping the head keeps a list sorted and removes one copy of the head. */
  lemma SortedTail(xs: seq<string>)
    requires Sorted(xs) && xs != []
    ensures Sorted(xs[1..])
    ensures multiset(xs[1..]) == multiset(xs) - multiset{xs[0]}
    ensures xs == [xs[0]] + xs[1..]
  {
    assert xs == [xs[0]] + xs[1..];
  }

  // ---------------------------------------------------------------------
  // Gluing the parts back together

  /** The names of the glob sinan.duckdb.part*, in listing order. */
  function Matching(listing: seq<string>): (r: seq<string>)
    ensures forall n :: n in r <==> n in listing && StartsWith(n, PART_PREFIX)
    ensures forall n :: multiset(r)[n] == if StartsWith(n, PART_PREFIX) then multiset(listing)[n] else 0
  {
    if listing == [] then []
    else
      assert listing == [listing[0]] + listing[1..];
      (if StartsWith(listing[0], PART_PREFIX) then [listing[0]] else []) + Matching(listing[1..])
  }

  /** The bytes of the named files one after the other. */
  function Contents(files: map<string, seq<bv8>>, names: seq<string>): seq<bv8>
    requires forall n :: n in names ==> n in files
  {
    if names == [] then [] else files[names[0]] + Contents(files, names[1..])
  }

  lemma ContentsAppend(files: map<string, seq<bv8>>, names: seq<string>, n: string)
    requires forall m :: m in names ==> m in files
    requires n in files
    ensures Contents(files, names + [n]) == Contents(files, names) + files[n]
  {
    if names != [] {
      assert (names + [n])[1..] == names[1..] + [n];
      ContentsAppend(files, names[1..], n);
    }
  }

  /** The part names join_database reads: the glob's matches, sorted. */
  function JoinedNames(listing: seq<string>): (names: seq<string>)
    ensures Sorted(names)
    ensures multiset(names) == multiset(Matching(listing))
    ensures forall n :: n in names <==> n in listing && StartsWith(n, PART_PREFIX)
  {
    var names := SortNames(Matching(listing));
    assert forall n :: n in names <==> n in multiset(Matching(listing));
    names
  }

  /** Reading one more name of the list appends that file's bytes. */
  lemma ContentsTake(files: map<string, seq<bv8>>, names: seq<string>, k: nat)
    requires forall m :: m in names ==> m in files
    requires k < |names|
    ensures Contents(files, names[..k + 1]) == Contents(files, names[..k]) + files[names[k]]
  {
    assert names[..k + 1] == names[..k] + [names[k]];
    ContentsAppend(files, names[..k], names[k]);
  }

  /** What join_database writes: nothing without parts, else the parts in sorted order. */
  function JoinResult(files: map<string, seq<bv8>>, listing: seq<string>): Option<seq<bv8>>
    requires forall n :: n in listing ==> n in files
  {
    var names := JoinedNames(listing);
    if names == [] then None else Some(Contents(files, names))
  }

  /** Join writes something exactly when some listed file matches the glob. */
  lemma JoinResultSome(files: map<string, seq<bv8>>, listing: seq<string>)
    requires forall n :: n in listing ==> n in files
    ensures JoinResult(files, listing).Some? <==> exists n :: n in listing && StartsWith(n, PART_PREFIX)
  {
    var names := JoinedNames(listing);
    if names != [] {
      assert names[0] in names;
    }
  }

  /** join_database: False and nothing written without parts, otherwise True and the glued bytes. */
  method JoinDatabase(files: map<string, seq<bv8>>, listing: seq<string>) returns (ok: bool, output: Option<seq<bv8>>)
    requires forall n :: n in listing ==> n in files
    ensures ok <==> output.Some?
    ensures output == JoinResult(files, listing)
  {
    var parts := JoinedNames(listing);
    if parts == [] {
      return false, None;
    }
    var outfile: seq<bv8> := [];
    for k := 0 to |parts|
      invariant outfile == Contents(files, parts[..k])
    {
      ContentsTake(files, parts, k);
      outfile := outfile + files[parts[k]];
    }
    assert parts[..|parts|] == parts;
    return true, Some(outfile);
  }

  /** The names of the parts, in index order. */
  function Names(parts: seq<Part>): (names: seq<string>)
    ensures |names| == |parts| && forall i :: 0 <= i < |parts| ==> names[i] == parts[i].name
  {
    if parts == [] then [] else [parts[0].name] + Names(parts[1..])
  }

  /** The bytes of the parts, in index order. */
  function Bytes(parts: seq<Part>): (chunks: seq<seq<bv8>>)
    ensures |chunks| == |parts| && forall i :: 0 <= i < |parts| ==> chunks[i] == parts[i].bytes
  {
    if parts == [] then [] else [parts[0].bytes] + Bytes(parts[1..])
  }

  /** The parts split writes carry the chunks in order. */
  lemma NamedFromBytes(chunks: seq<seq<bv8>>, k: nat)
    ensures Bytes(NamedFrom(chunks, k)) == chunks
  {
    NamedFromParts(chunks, k);
  }

  /** Reading the files of the parts a directory holds gives the parts' bytes one after the other. */
  lemma {:induction false} PartsContents(files: map<string, seq<bv8>>, parts: seq<Part>)
    requires forall p :: p in parts ==> p.name in files && files[p.name] == p.bytes
    ensures forall n :: n in Names(parts) ==> n in files
    ensures Contents(files, Names(parts)) == Flatten(Bytes(parts))
  {
    if parts != [] {
      assert forall p :: p in parts[1..] ==> p in parts;
      PartsContents(files, parts[1..]);
      assert parts[0] in parts;
      assert Names(parts)[1..] == Names(parts[1..]);
      assert Bytes(parts)[1..] == Bytes(parts[1..]);
    }
  }

  /** Part names of fewer than a thousand parts are sorted and distinct. */
  lemma PartNamesSorted(names: seq<string>)
    requires |names| <= 1000
    requires forall i :: 0 <= i < |names| ==> names[i] == PartName(i)
    ensures Sorted(names)
    ensures forall n :: multiset(names)[n] == if n in names then 1 else 0
  {
    PartNamesAscending(names);
    StrictlyAscending(names);
  }

  /** Names given by index, fewer than a thousand of them, ascend strictly. */
  lemma PartNamesAscending(names: seq<string>)
    requires |names| <= 1000
    requires forall i :: 0 <= i < |names| ==> names[i] == PartName(i)
    ensures forall i, j :: 0 <= i < j < |names| ==> LexLess(names[i], names[j])
  {
    forall i, j | 0 <= i < j < |names|
      ensures LexLess(names[i], names[j])
    {
      PartNameOrder(i, j);
    }
  }

  /** Strictly ascending names are sorted and each occurs once. */
  lemma StrictlyAscending(names: seq<string>)
    requires forall i, j :: 0 <= i < j < |names| ==> LexLess(names[i], names[j])
    ensures Sorted(names)
    ensures forall n :: multiset(names)[n] == if n in names then 1 else 0
  {
    DistinctCount(names);
  }

  lemma {:induction false} DistinctCount(names: seq<string>)
    requires forall i, j :: 0 <= i < j < |names| ==> LexLess(names[i], names[j])
    ensures forall n :: multiset(names)[n] == if n in names then 1 else 0
  {
    if names != [] {
      DistinctCount(names[1..]);
      assert names == [names[0]] + names[1..];
      forall k | 0 <= k < |names[1..]|
        ensures names[1..][k] != names[0]
      {
        LexLessIrreflexive(names[0]);
      }
    }
  }

  /** A file of at most a thousand chunks' worth of bytes is split into at most a thousand parts. */
  lemma SplitPartsAtMostThousand(data: seq<bv8>)
    requires |data| <= 1000 * CHUNK_SIZE
    ensures |SplitParts(data)| <= 1000
  {
    var parts := SplitParts(data);
    SplitPartsShape(data);
    if |parts| > 1000 {
      MulMonotone(1000, |parts| - 1, CHUNK_SIZE);
    }
  }

  /** Every part split writes matches the join's glob. */
  lemma SplitNamesMatch(data: seq<bv8>)
    ensures forall n :: n in Names(SplitParts(data)) ==> StartsWith(n, PART_PREFIX)
  {
    var parts := SplitParts(data);
    var names := Names(parts);
    SplitPartsShape(data);
    forall n | n in names
      ensures StartsWith(n, PART_PREFIX)
    {
      var i :| 0 <= i < |names| && names[i] == n;
      PartNameMatches(i);
    }
  }

  /**
   * The glob finds each of the names once when the directory holds them and
   * no other matching file, and the listing names every file once.
   */
  lemma MatchingExactly(files: map<string, seq<bv8>>, listing: seq<string>, names: seq<string>)
    requires forall n :: n in names ==> n in files && StartsWith(n, PART_PREFIX)
    requires forall n :: n in files && StartsWith(n, PART_PREFIX) ==> n in names
    requires forall n :: multiset(listing)[n] == if n in files then 1 else 0
    requires forall n :: multiset(names)[n] == if n in names then 1 else 0
    ensures multiset(Matching(listing)) == multiset(names)
  {
    var found := Matching(listing);
    forall n
      ensures multiset(found)[n] == multiset(names)[n]
    {
    }
  }

  /**
   * When the directory holds the parts split wrote, listed once each in any
   * order, and no other file matching the glob, join reads exactly those
   * parts in index order.
   */
  lemma JoinedNamesOfSplit(data: seq<bv8>, files: map<string, seq<bv8>>, listing: seq<string>)
    requires |data| <= 1000 * CHUNK_SIZE
    requires forall p :: p in SplitParts(data) ==> p.name in files && files[p.name] == p.bytes
    requires forall n :: n in files && StartsWith(n, PART_PREFIX) ==> n in Names(SplitParts(data))
    requires forall n :: multiset(listing)[n] == if n in files then 1 else 0
    ensures JoinedNames(listing) == Names(SplitParts(data))
  {
    var names := Names(SplitParts(data));
    SplitNamesSorted(data);
    SplitNamesMatch(data);
    SplitNamesInFiles(data, files);
    MatchingExactly(files, listing, names);
    SortedUnique(JoinedNames(listing), names);
  }

  /** The names split gives its parts are sorted and each occurs once. */
  lemma SplitNamesSorted(data: seq<bv8>)
    requires |data| <= 1000 * CHUNK_SIZE
    ensures Sorted(Names(SplitParts(data)))
    ensures forall n :: multiset(Names(SplitParts(data)))[n] == if n in Names(SplitParts(data)) then 1 else 0
  {
    SplitPartsAtMostThousand(data);
    SplitPartsShape(data);
    PartNamesSorted(Names(SplitParts(data)));
  }

  /** A directory holding every part split wrote holds each of their names. */
  lemma SplitNamesInFiles(data: seq<bv8>, files: map<string, seq<bv8>>)
    requires forall p :: p in SplitParts(data) ==> p.name in files && files[p.name] == p.bytes
    ensures forall n :: n in Names(SplitParts(data)) ==> n in files
  {
    var parts := SplitParts(data);
    var names := Names(parts);
    forall n | n in names
      ensures n in files
    {
      var i :| 0 <= i < |names| && names[i] == n;
      assert parts[i] in parts;
    }
  }

  /**
   * Join after split gives back the file: when the directory holds the parts
   * split wrote (at most a thousand of them) and no other file matching the
   * glob, joining them in any listing order reproduces the bytes, and an
   * empty file leaves nothing to join.
   */
  lemma SplitJoinRoundTrip(data: seq<bv8>, files: map<string, seq<bv8>>, listing: seq<string>)
    requires |data| <= 1000 * CHUNK_SIZE
    requires forall p :: p in SplitParts(data) ==> p.name in files && files[p.name] == p.bytes
    requires forall n :: n in files && StartsWith(n, PART_PREFIX) ==> n in Names(SplitParts(data))
    requires forall n :: multiset(listing)[n] == if n in files then 1 else 0
    ensures forall n :: n in listing ==> n in files
    ensures data != [] ==> JoinResult(files, listing) == Some(data)
    ensures data == [] ==> JoinResult(files, listing) == None
  {
    forall n | n in listing
      ensures n in files
    {
      assert n in multiset(listing);
    }
    var parts := SplitParts(data);
    JoinedNamesOfSplit(data, files, listing);
    SplitPartsShape(data);
    PartsContents(files, parts);
    NamedFromBytes(Chunks(data, CHUNK_SIZE), 0);
    FlattenChunks(data, 0, CHUNK_SIZE);
    assert data[0..] == data;
  }

  lemma MulMonotone(x: nat, y: nat, size: nat)
    requires x <= y
    ensures x * size <= y * size
  {
    var d := y - x;
    assert y * size == x * size + d * size;
  }
}
