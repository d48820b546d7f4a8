/**
  ZIP test archives (internal/importer/tests.go): entries are read under one shrinking byte
  budget into a two-level map and come out as pairs sorted by name.  Decompression is the
  parameter `decode`, which turns archive bytes into named entries or rejects them.
*/
module Importer {
  import opened Base

  datatype Limits = Limits(maxBytes: int, maxFiles: int)

  /**
    What reading an entry yields: nothing when it cannot be opened, otherwise `bytes` followed
    by the end of the file, or by an error when it is not `sound` (a bad checksum, say).
  */
  datatype Stream = Stream(opens: bool, bytes: Bytes, sound: bool)

  datatype Entry = Entry(name: string, regular: bool, data: Stream)

  datatype TestPair = TestPair(name: string, input: Bytes, output: Bytes)

  datatype Error =
    | BadLimits | TooLarge | NotZip | Empty | TooManyFiles | UnsafeName | NotRegular
    | Unsupported | Duplicate | Unreadable | TooMuch | Unpaired

  type Decoder = Bytes -> Option<seq<Entry>>

  const IN := ".in"
  const OUT := ".out"

  // ----- names -----

  function StripSlashes(path: string): string {
    if path != "" && path[|path| - 1] == '/' then StripSlashes(path[..|path| - 1]) else path
  }

  function AfterSlash(path: string): string {
    if path == "" then ""
    else if path[|path| - 1] == '/' then ""
    else AfterSlash(path[..|path| - 1]) + [path[|path| - 1]]
  }

  /** Go's path.Base. */
  function PathBase(path: string): string {
    if path == "" then "."
    else
      var element := AfterSlash(StripSlashes(path));
      if element == "" then "/" else element
  }

  /** Go's path.Ext: from the last dot of the last path element on. */
  function Ext(path: string): (ext: string)
    ensures |ext| <= |path| && path[|path| - |ext|..] == ext
  {
    if path == "" || path[|path| - 1] == '/' then ""
    else if path[|path| - 1] == '.' then "."
    else
      var ext := Ext(path[..|path| - 1]);
      if ext == "" then "" else ext + [path[|path| - 1]]
  }

  /**
    The names the importer accepts.  The source also refuses a cleaned path that contains "../";
    such a path has a slash, and PathBase already refuses every name with one.
  */
  predicate ValidName(name: string) {
    name != "" && '\\' !in name && name[0] != '/' && PathBase(name) == name
  }

  lemma {:induction false} AfterSlashFlat(path: string)
    ensures '/' !in AfterSlash(path)
    ensures '/' !in path ==> AfterSlash(path) == path
  {
    if path != "" && path[|path| - 1] != '/' {
      AfterSlashFlat(path[..|path| - 1]);
      assert path == path[..|path| - 1] + [path[|path| - 1]];
    }
  }

  /** A name is accepted exactly when it is one plain path element. */
  lemma ValidNameIsFlat(name: string)
    ensures ValidName(name) <==> name != "" && '/' !in name && '\\' !in name
  {
    if name != "" {
      AfterSlashFlat(StripSlashes(name));
      if '/' !in name { assert StripSlashes(name) == name; }
    }
  }

  /** The only letters outside A-Z that Go lowers to ASCII are the dotted capital I and the Kelvin sign. */
  function Lower(c: char): char {
    if 'A' <= c <= 'Z' then c - 'A' + 'a'
    else if c == '\U{0130}' then 'i'
    else if c == '\U{212A}' then 'k'
    else c
  }

  function ToLower(s: string): string {
    seq(|s|, i requires 0 <= i < |s| => Lower(s[i]))
  }

  function Kind(e: Entry): string { ToLower(Ext(e.name)) }

  function Stem(e: Entry): string { e.name[..|e.name| - |Ext(e.name)|] }

  /** The names of the input and of the output of a test, with any capitals in the extension. */
  predicate IsInput(name: string, stem: string) {
    && |name| == |stem| + 3 && name[..|stem|] == stem && name[|stem|] == '.'
    && (name[|stem| + 1] == 'i' || name[|stem| + 1] == 'I' || name[|stem| + 1] == '\U{0130}')
    && (name[|stem| + 2] == 'n' || name[|stem| + 2] == 'N')
  }

  predicate IsOutput(name: string, stem: string) {
    && |name| == |stem| + 4 && name[..|stem|] == stem && name[|stem|] == '.'
    && (name[|stem| + 1] == 'o' || name[|stem| + 1] == 'O')
    && (name[|stem| + 2] == 'u' || name[|stem| + 2] == 'U')
    && (name[|stem| + 3] == 't' || name[|stem| + 3] == 'T')
  }

  lemma {:induction false} LowerOf(c: char)
    ensures Lower(c) == '.' <==> c == '.'
    ensures Lower(c) == 'i' <==> c == 'i' || c == 'I' || c == '\U{0130}'
    ensures Lower(c) == 'n' <==> c == 'n' || c == 'N'
    ensures Lower(c) == 'o' <==> c == 'o' || c == 'O'
    ensures Lower(c) == 'u' <==> c == 'u' || c == 'U'
    ensures Lower(c) == 't' <==> c == 't' || c == 'T'
  {
  }

  lemma {:induction false} ExtStep(path: string, c: char)
    ensures c == '.' ==> Ext(path + [c]) == "."
    ensures c != '.' && c != '/' && Ext(path) != "" ==> Ext(path + [c]) == Ext(path) + [c]
  {
    assert (path + [c])[..|path + [c]| - 1] == path;
  }

  /** The extension is what follows the last dot. */
  lemma {:induction false} ExtAfterDot(stem: string, letters: string)
    requires '.' !in letters && '/' !in letters
    ensures Ext(stem + "." + letters) == "." + letters
    decreases |letters|
  {
    hide Ext;
    if letters == "" {
      ExtStep(stem, '.');
      assert stem + "." + letters == stem + ['.'];
    } else {
      var init, c := letters[..|letters| - 1], letters[|letters| - 1];
      ExtAfterDot(stem, init);
      ExtStep(stem + "." + init, c);
      assert letters == init + [c];
      assert stem + "." + letters == stem + "." + init + [c];
      assert "." + letters == "." + init + [c];
    }
  }

  lemma {:induction false} InputKind(e: Entry, stem: string)
    requires IsInput(e.name, stem)
    ensures Kind(e) == IN && Stem(e) == stem
  {
    hide Lower;
    var letters := e.name[|stem| + 1..];
    assert e.name == stem + "." + letters;
    ExtAfterDot(stem, letters);
    LowerOf('.');
    LowerOf(letters[0]);
    LowerOf(letters[1]);
    assert Ext(e.name)[1] == letters[0] && Ext(e.name)[2] == letters[1];
  }

  lemma {:induction false} OutputKind(e: Entry, stem: string)
    requires IsOutput(e.name, stem)
    ensures Kind(e) == OUT && Stem(e) == stem
  {
    hide Lower;
    var letters := e.name[|stem| + 1..];
    assert e.name == stem + "." + letters;
    ExtAfterDot(stem, letters);
    LowerOf('.');
    LowerOf(letters[0]);
    LowerOf(letters[1]);
    LowerOf(letters[2]);
    assert Ext(e.name)[1] == letters[0] && Ext(e.name)[2] == letters[1] && Ext(e.name)[3] == letters[2];
  }

  lemma {:induction false} KindAt(e: Entry, i: nat)
    requires i < |Kind(e)|
    ensures |Stem(e)| + i < |e.name| && |e.name| == |Stem(e)| + |Kind(e)| && Kind(e)[i] == Lower(e.name[|Stem(e)| + i])
  {
    assert Ext(e.name)[i] == e.name[|Stem(e)| + i];
  }

  lemma {:induction false} KindOfInput(e: Entry)
    requires Kind(e) == IN
    ensures IsInput(e.name, Stem(e))
  {
    for i := 0 to 3
      invariant forall j :: 0 <= j < i ==> Lower(e.name[|Stem(e)| + j]) == IN[j]
    {
      KindAt(e, i);
    }
    assert IN[0] == '.' && IN[1] == 'i' && IN[2] == 'n';
    LowerOf(e.name[|Stem(e)|]);
    LowerOf(e.name[|Stem(e)| + 1]);
    LowerOf(e.name[|Stem(e)| + 2]);
  }

  lemma {:induction false} KindOfOutput(e: Entry)
    requires Kind(e) == OUT
    ensures IsOutput(e.name, Stem(e))
  {
    for i := 0 to 4
      invariant forall j :: 0 <= j < i ==> Lower(e.name[|Stem(e)| + j]) == OUT[j]
    {
      KindAt(e, i);
    }
    assert OUT[0] == '.' && OUT[1] == 'o' && OUT[2] == 'u' && OUT[3] == 't';
    LowerOf(e.name[|Stem(e)|]);
    LowerOf(e.name[|Stem(e)| + 1]);
    LowerOf(e.name[|Stem(e)| + 2]);
    LowerOf(e.name[|Stem(e)| + 3]);
  }

  /** The extension and the stem decide what a file of a test is, exactly by its name. */
  lemma {:induction false} TestFileNames(e: Entry, stem: string)
    ensures Kind(e) == IN && Stem(e) == stem <==> IsInput(e.name, stem)
    ensures Kind(e) == OUT && Stem(e) == stem <==> IsOutput(e.name, stem)
  {
    hide Kind, Stem, IsInput, IsOutput;
    if IsInput(e.name, stem) { InputKind(e, stem); }
    if IsOutput(e.name, stem) { OutputKind(e, stem); }
    if Kind(e) == IN { KindOfInput(e); }
    if Kind(e) == OUT { KindOfOutput(e); }
  }

  // ----- what an archive must be -----

  predicate EntryOk(e: Entry) {
    ValidName(e.name) && e.regular && (Kind(e) == IN || Kind(e) == OUT) && e.data.opens && e.data.sound
  }

  /** A file of the archive, with the case of its extension forgotten. */
  datatype Item = Item(stem: string, kind: string, bytes: Bytes)

  function ItemOf(e: Entry): Item {
    Item(Stem(e), Kind(e), e.data.bytes)
  }

  function Items(entries: seq<Entry>): (items: seq<Item>)
    ensures |items| == |entries|
  {
    seq(|entries|, i requires 0 <= i < |entries| => ItemOf(entries[i]))
  }

  function Sum(items: seq<Item>): nat {
    if items == [] then 0 else Sum(items[..|items| - 1]) + |items[|items| - 1].bytes|
  }

  predicate SameFile(a: Item, b: Item) {
    a.stem == b.stem && a.kind == b.kind
  }

  ghost predicate Distinct(items: seq<Item>) {
    forall i, j :: 0 <= i < j < |items| ==> !SameFile(items[i], items[j])
  }

  predicate Partners(a: Item, b: Item) {
    a.stem == b.stem && a.kind != b.kind
  }

  ghost predicate HasPartner(items: seq<Item>, i: nat)
    requires i < |items|
  {
    exists j :: 0 <= j < |items| && Partners(items[i], items[j])
  }

  ghost predicate Matched(items: seq<Item>) {
    forall i :: 0 <= i < |items| ==> HasPartner(items, i)
  }

  /** The archives that are accepted. */
  ghost predicate Accepts(entries: seq<Entry>, limits: Limits) {
    && 0 < |entries| <= limits.maxFiles
    && Sound(entries, limits.maxBytes) && Matched(Items(entries))
  }

  ghost predicate EachOk(entries: seq<Entry>, n: nat)
    requires n <= |entries|
  {
    forall i :: 0 <= i < n ==> EntryOk(entries[i])
  }

  /** Every entry is a test file, no two are the same file, and together they fit the budget. */
  ghost predicate Sound(entries: seq<Entry>, maxBytes: int) {
    && EachOk(entries, |entries|)
    && Distinct(Items(entries))
    && Sum(Items(entries)) <= maxBytes
  }

  ghost predicate Readable(raw: Bytes, limits: Limits, decode: Decoder) {
    && limits.maxBytes > 0 && limits.maxFiles > 0 && |raw| <= limits.maxBytes
    && decode(raw).Some? && Accepts(decode(raw).value, limits)
  }

  // ----- what comes out -----

  function Flatten(pairs: seq<TestPair>): seq<Item> {
    seq(2 * |pairs|, i requires 0 <= i < 2 * |pairs| =>
      var p := pairs[i / 2];
      if i % 2 == 0 then Item(p.name, IN, p.input) else Item(p.name, OUT, p.output))
  }

  predicate Less(a: string, b: string) {
    b != "" && (a == "" || a[0] < b[0] || (a[0] == b[0] && Less(a[1..], b[1..])))
  }

  ghost predicate Sorted(names: seq<string>) {
    forall i, j :: 0 <= i < j < |names| ==> Less(names[i], names[j])
  }

  ghost predicate ByName(pairs: seq<TestPair>) {
    forall i, j :: 0 <= i < j < |pairs| ==> Less(pairs[i].name, pairs[j].name)
  }

  /** The pairs are strictly sorted by name and give back every file exactly once. */
  ghost predicate IsPairing(items: seq<Item>, pairs: seq<TestPair>) {
    ByName(pairs) && multiset(Flatten(pairs)) == multiset(items)
  }

  lemma {:induction false} LessIrreflexive(a: string)
    ensures !Less(a, a)
  {
    if a != "" { LessIrreflexive(a[1..]); }
  }

  lemma {:induction false} LessTransitive(a: string, b: string, c: string)
    requires Less(a, b) && Less(b, c)
    ensures Less(a, c)
  {
    if a != "" && a[0] == b[0] && b[0] == c[0] { LessTransitive(a[1..], b[1..], c[1..]); }
  }

  lemma {:induction false} LessTotal(a: string, b: string)
    ensures a == b || Less(a, b) || Less(b, a)
  {
    if a != "" && b != "" && a[0] == b[0] {
      LessTotal(a[1..], b[1..]);
      assert a == [a[0]] + a[1..] && b == [b[0]] + b[1..];
    }
  }

  /** The byte order of Go: a proper prefix comes first, and else the smaller character at the first difference. */
  ghost predicate Precedes(a: string, b: string) {
    (|a| < |b| && b[..|a|] == a) || exists k :: SmallerAt(a, b, k)
  }

  predicate SmallerAt(a: string, b: string, k: int) {
    0 <= k < |a| && k < |b| && a[..k] == b[..k] && a[k] < b[k]
  }

  lemma {:induction false} LessPrecedes(a: string, b: string)
    requires Less(a, b)
    ensures Precedes(a, b)
  {
    if a != "" {
      if a[0] < b[0] {
        assert SmallerAt(a, b, 0);
      } else {
        LessPrecedes(a[1..], b[1..]);
        assert a == [a[0]] + a[1..] && b == [b[0]] + b[1..];
        if k :| SmallerAt(a[1..], b[1..], k) { assert SmallerAt(a, b, k + 1); }
      }
    }
  }

  lemma {:induction false} PrecedesLess(a: string, b: string)
    requires Precedes(a, b)
    ensures Less(a, b)
  {
    if |a| < |b| && b[..|a|] == a {
      if a != "" {
        assert b[1..][..|a| - 1] == a[1..];
        PrecedesLess(a[1..], b[1..]);
      }
    } else {
      var k :| SmallerAt(a, b, k);
      if k > 0 {
        assert a[..k][0] == b[..k][0] && a[1..][..k - 1] == a[..k][1..] && b[1..][..k - 1] == b[..k][1..];
        assert SmallerAt(a[1..], b[1..], k - 1);
        PrecedesLess(a[1..], b[1..]);
      }
    }
  }

  /** The recursive comparison is the byte order. */
  lemma {:induction false} LessIsByteOrder(a: string, b: string)
    ensures Less(a, b) <==> Precedes(a, b)
  {
    if Less(a, b) { LessPrecedes(a, b); }
    if Precedes(a, b) { PrecedesLess(a, b); }
  }

  function Insert(name: string, names: seq<string>): seq<string> {
    if names == [] then [name]
    else if Less(name, names[0]) then [name] + names
    else [names[0]] + Insert(name, names[1..])
  }

  /** Go's sort.Strings. */
  function SortStrings(names: seq<string>): seq<string> {
    if names == [] then [] else Insert(names[0], SortStrings(names[1..]))
  }

  lemma {:induction false} InsertKeeps(name: string, names: seq<string>)
    requires Sorted(names) && name !in names
    ensures Sorted(Insert(name, names))
    ensures forall x :: x in Insert(name, names) <==> x == name || x in names
    ensures |Insert(name, names)| == |names| + 1
  {
    if names == [] {
    } else if Less(name, names[0]) {
      forall j | 0 <= j < |names| ensures Less(name, names[j]) {
        if j > 0 { LessTransitive(name, names[0], names[j]); }
      }
    } else {
      LessTotal(name, names[0]);
      InsertKeeps(name, names[1..]);
      var rest := Insert(name, names[1..]);
      forall j | 0 <= j < |rest| ensures Less(names[0], rest[j]) { assert rest[j] in rest; }
    }
  }

  lemma {:induction false} SortStringsSorts(names: seq<string>)
    requires NoDuplicates(names)
    ensures Sorted(SortStrings(names))
    ensures forall x :: x in SortStrings(names) <==> x in names
    ensures |SortStrings(names)| == |names|
  {
    if names != [] {
      SortStringsSorts(names[1..]);
      InsertKeeps(names[0], SortStrings(names[1..]));
    }
  }

  // ----- uniqueness: neither entry order nor map order shows in the result -----

  lemma {:induction false} FlattenAt(pairs: seq<TestPair>, i: nat)
    requires i < |pairs|
    ensures Item(pairs[i].name, IN, pairs[i].input) in Flatten(pairs)
    ensures Item(pairs[i].name, OUT, pairs[i].output) in Flatten(pairs)
  {
    assert Flatten(pairs)[2 * i] == Item(pairs[i].name, IN, pairs[i].input);
    assert Flatten(pairs)[2 * i + 1] == Item(pairs[i].name, OUT, pairs[i].output);
  }

  lemma {:induction false} FlatItem(pairs: seq<TestPair>, item: Item) returns (i: nat)
    requires item in Flatten(pairs)
    ensures i < |pairs| && pairs[i].name == item.stem
    ensures (item.kind == IN && pairs[i].input == item.bytes) || (item.kind == OUT && pairs[i].output == item.bytes)
  {
    var j :| 0 <= j < 2 * |pairs| && Flatten(pairs)[j] == item;
    i := j / 2;
  }

  lemma SameName(pairs: seq<TestPair>, i: nat, j: nat)
    requires ByName(pairs) && i < |pairs| && j < |pairs| && pairs[i].name == pairs[j].name
    ensures i == j
  {
    LessIrreflexive(pairs[i].name);
  }

  lemma {:induction false} PairsWithin(p: seq<TestPair>, q: seq<TestPair>, i: nat)
    requires ByName(p) && ByName(q) && multiset(Flatten(p)) == multiset(Flatten(q)) && i < |p|
    ensures p[i] in q
  {
    FlattenAt(p, i);
    var first := Item(p[i].name, IN, p[i].input);
    var second := Item(p[i].name, OUT, p[i].output);
    assert first in multiset(Flatten(p)) && second in multiset(Flatten(p));
    var j := FlatItem(q, first);
    var k := FlatItem(q, second);
    SameName(q, j, k);
    assert q[j] == p[i];
  }

  lemma NoMembers(p: seq<TestPair>, q: seq<TestPair>)
    requires forall x :: x in p <==> x in q
    ensures p == [] <==> q == []
  {
    if |p| > 0 { assert p[0] in p && p[0] in q; }
    if |q| > 0 { assert q[0] in q && q[0] in p; }
  }

  lemma {:induction false} SameSorted(p: seq<TestPair>, q: seq<TestPair>)
    requires ByName(p) && ByName(q)
    requires forall x :: x in p <==> x in q
    ensures p == q
  {
    if p == [] || q == [] {
      NoMembers(p, q);
    } else {
      assert p[0] in q && q[0] in p;
      if p[0] != q[0] {
        LessTransitive(p[0].name, q[0].name, p[0].name);
        LessIrreflexive(p[0].name);
        assert false;
      }
      forall x | x in p[1..] ensures x in q[1..] { TailOf(p, q, x); }
      forall x | x in q[1..] ensures x in p[1..] { TailOf(q, p, x); }
      SameSorted(p[1..], q[1..]);
      assert p == [p[0]] + p[1..] && q == [q[0]] + q[1..];
    }
  }

  lemma TailOf(p: seq<TestPair>, q: seq<TestPair>, x: TestPair)
    requires ByName(p) && p != [] && q != [] && p[0] == q[0] && x in p[1..] && x in q
    ensures x in q[1..]
  {
    LessIrreflexive(x.name);
    assert x != p[0];
  }

  /** The result is determined by the set of files: two pairings of one collection are equal. */
  lemma {:induction false} PairingUnique(a: seq<Item>, b: seq<Item>, p: seq<TestPair>, q: seq<TestPair>)
    requires multiset(a) == multiset(b)
    requires IsPairing(a, p) && IsPairing(b, q)
    ensures p == q
  {
    forall x ensures x in p <==> x in q {
      if i :| 0 <= i < |p| && p[i] == x { PairsWithin(p, q, i); }
      if i :| 0 <= i < |q| && q[i] == x { PairsWithin(q, p, i); }
    }
    SameSorted(p, q);
  }

  // ----- the reader -----

  /** Reads one entry with at most `remaining` bytes of budget; `drawn` counts what was read. */
  function ReadBounded(e: Entry, remaining: int): (r: (Result<Bytes, Error>, nat))
    ensures r.1 <= if remaining < 0 then 0 else remaining + 1
    ensures r.0.Ok? <==> remaining >= 0 && e.data.opens && e.data.sound && |e.data.bytes| <= remaining
    ensures r.0.Ok? ==> r.0.value == e.data.bytes && r.1 == |e.data.bytes|
  {
    if remaining < 0 then (Err(TooMuch), 0)
    else if !e.data.opens then (Err(Unreadable), 0)
    // The limited reader stops after remaining + 1 bytes and never sees a later error.
    else if |e.data.bytes| > remaining then (Err(TooMuch), remaining + 1)
    else if !e.data.sound then (Err(Unreadable), |e.data.bytes|)
    else (Ok(e.data.bytes), |e.data.bytes|)
  }

  type Table = map<string, map<string, Bytes>>

  predicate InTable(files: Table, b: string, k: string) {
    b in files && k in files[b]
  }

  predicate Stored(files: Table, x: Item) {
    InTable(files, x.stem, x.kind) && files[x.stem][x.kind] == x.bytes
  }

  function Put(files: Table, x: Item): Table {
    var row := if x.stem in files then files[x.stem] else map[];
    files[x.stem := row[x.kind := x.bytes]]
  }

  /** The table that a list of files builds up, one after the other. */
  ghost function Fill(items: seq<Item>): Table {
    if items == [] then map[] else Put(Fill(items[..|items| - 1]), items[|items| - 1])
  }

  lemma {:induction false} EachIsStored(items: seq<Item>, i: nat)
    requires Distinct(items) && i < |items|
    ensures Stored(Fill(items), items[i])
  {
    var n := |items| - 1;
    if i < n {
      EachIsStored(items[..n], i);
      assert !SameFile(items[i], items[n]);
    }
  }

  lemma {:induction false} OnlyTheseAreStored(items: seq<Item>, b: string, k: string) returns (i: nat)
    requires InTable(Fill(items), b, k)
    ensures i < |items| && items[i].stem == b && items[i].kind == k
  {
    var n := |items| - 1;
    if items[n].stem == b && items[n].kind == k { i := n; } else { i := OnlyTheseAreStored(items[..n], b, k); }
  }

  lemma {:induction false} StemIsSomeones(items: seq<Item>, b: string) returns (i: nat)
    requires b in Fill(items)
    ensures i < |items| && items[i].stem == b
  {
    var n := |items| - 1;
    if items[n].stem == b { i := n; } else { i := StemIsSomeones(items[..n], b); }
  }

  /** A file that is not in the table yet differs from all the files that are. */
  lemma {:induction false} DistinctGrows(items: seq<Item>, n: nat)
    requires n < |items| && Distinct(items[..n]) && !InTable(Fill(items[..n]), items[n].stem, items[n].kind)
    ensures Distinct(items[..n + 1]) && Fill(items[..n + 1]) == Put(Fill(items[..n]), items[n])
  {
    forall i | 0 <= i < n ensures !SameFile(items[i], items[n]) {
      EachIsStored(items[..n], i);
    }
    assert items[..n + 1][..n] == items[..n];
  }

  /** A second file with the same stem and kind makes the whole archive ambiguous. */
  lemma {:induction false} ClashSpoils(items: seq<Item>, n: nat)
    requires n < |items| && InTable(Fill(items[..n]), items[n].stem, items[n].kind)
    ensures !Distinct(items)
  {
    var j := OnlyTheseAreStored(items[..n], items[n].stem, items[n].kind);
    assert SameFile(items[j], items[n]);
  }

  predicate KindOk(x: Item) {
    x.kind == IN || x.kind == OUT
  }

  predicate BothThere(files: Table, b: string) {
    InTable(files, b, IN) && InTable(files, b, OUT)
  }

  ghost predicate Complete(files: Table) {
    forall b :: b in files ==> BothThere(files, b)
  }

  /** Every stem has both its files, in the table exactly when in the archive. */
  lemma {:induction false} TableMatched(items: seq<Item>)
    requires Distinct(items) && forall i :: 0 <= i < |items| ==> KindOk(items[i])
    ensures Matched(items) <==> Complete(Fill(items))
  {
    if Matched(items) {
      forall b | b in Fill(items) ensures BothThere(Fill(items), b) { StemComplete(items, b); }
    }
    if Complete(Fill(items)) {
      forall i | 0 <= i < |items| ensures HasPartner(items, i) { FindPartner(items, i); }
    }
  }

  lemma {:induction false} StemComplete(items: seq<Item>, b: string)
    requires Distinct(items) && Matched(items) && b in Fill(items)
    requires forall i :: 0 <= i < |items| ==> KindOk(items[i])
    ensures BothThere(Fill(items), b)
  {
    var i := StemIsSomeones(items, b);
    assert HasPartner(items, i);
    var j :| 0 <= j < |items| && Partners(items[i], items[j]);
    EachIsStored(items, i);
    EachIsStored(items, j);
    assert KindOk(items[i]) && KindOk(items[j]);
  }

  lemma {:induction false} FindPartner(items: seq<Item>, i: nat)
    requires Distinct(items) && i < |items| && KindOk(items[i]) && Complete(Fill(items))
    ensures HasPartner(items, i)
  {
    EachIsStored(items, i);
    assert BothThere(Fill(items), items[i].stem);
    var j := OnlyTheseAreStored(items, items[i].stem, if items[i].kind == IN then OUT else IN);
    assert Partners(items[i], items[j]);
  }

  ghost predicate NoDuplicates<T>(s: seq<T>) {
    forall i, j :: 0 <= i < j < |s| ==> s[i] != s[j]
  }

  lemma {:induction false} CountOne<T>(s: seq<T>, x: T)
    requires NoDuplicates(s)
    ensures multiset(s)[x] == if x in s then 1 else 0
  {
    if s != [] {
      CountOne(s[1..], x);
      assert s == [s[0]] + s[1..];
    }
  }

  lemma SameMembers<T(!new)>(a: seq<T>, b: seq<T>)
    requires NoDuplicates(a) && NoDuplicates(b)
    requires forall x :: x in a <==> x in b
    ensures multiset(a) == multiset(b)
  {
    forall x ensures multiset(a)[x] == multiset(b)[x] {
      CountOne(a, x);
      CountOne(b, x);
    }
  }

  function PairOf(files: Table, b: string): TestPair
    requires BothThere(files, b)
  {
    TestPair(b, files[b][IN], files[b][OUT])
  }

  ghost predicate PairsFrom(files: Table, names: seq<string>, pairs: seq<TestPair>) {
    && |pairs| == |names|
    && forall i :: 0 <= i < |pairs| ==> BothThere(files, names[i]) && pairs[i] == PairOf(files, names[i])
  }

  lemma {:induction false} FlatDistinct(pairs: seq<TestPair>)
    requires ByName(pairs)
    ensures NoDuplicates(Flatten(pairs))
  {
    var flat := Flatten(pairs);
    forall i, j | 0 <= i < j < |flat| ensures flat[i] != flat[j] {
      if i / 2 != j / 2 { LessIrreflexive(pairs[i / 2].name); }
    }
  }

  lemma {:induction false} FlatStored(items: seq<Item>, names: seq<string>, pairs: seq<TestPair>, x: Item)
    requires Distinct(items) && PairsFrom(Fill(items), names, pairs) && x in Flatten(pairs)
    ensures x in items
  {
    var i := FlatItem(pairs, x);
    assert BothThere(Fill(items), names[i]);
    var j := OnlyTheseAreStored(items, names[i], x.kind);
    EachIsStored(items, j);
    assert items[j] == x;
  }

  lemma {:induction false} StoredFlat(items: seq<Item>, names: seq<string>, pairs: seq<TestPair>, j: nat)
    requires Distinct(items) && PairsFrom(Fill(items), names, pairs)
    requires j < |items| && KindOk(items[j]) && items[j].stem in names
    ensures items[j] in Flatten(pairs)
  {
    EachIsStored(items, j);
    var i :| 0 <= i < |names| && names[i] == items[j].stem;
    FlattenAt(pairs, i);
  }

  lemma {:induction false} SameFiles(items: seq<Item>, names: seq<string>, pairs: seq<TestPair>, x: Item)
    requires Distinct(items) && PairsFrom(Fill(items), names, pairs)
    requires forall i :: 0 <= i < |items| ==> KindOk(items[i]) && items[i].stem in names
    ensures x in Flatten(pairs) <==> x in items
  {
    if x in Flatten(pairs) { FlatStored(items, names, pairs, x); }
    if j :| 0 <= j < |items| && items[j] == x { StoredFlat(items, names, pairs, j); }
  }

  /** The pairs built from a complete table, in sorted order of its stems, are the pairing. */
  lemma {:induction false} TablePairs(items: seq<Item>, names: seq<string>, pairs: seq<TestPair>)
    requires Distinct(items) && Sorted(names) && PairsFrom(Fill(items), names, pairs)
    requires forall i :: 0 <= i < |items| ==> KindOk(items[i]) && items[i].stem in names
    ensures IsPairing(items, pairs)
  {
    FlatDistinct(pairs);
    forall x ensures x in Flatten(pairs) <==> x in items { SameFiles(items, names, pairs, x); }
    SameMembers(Flatten(pairs), items);
  }

  lemma {:induction false} SumPrefix(items: seq<Item>, i: nat)
    requires i < |items|
    ensures Sum(items[..i + 1]) == Sum(items[..i]) + |items[i].bytes|
    ensures Sum(items[..i + 1]) <= Sum(items)
  {
    assert items[..i + 1][..i] == items[..i];
    SumGrows(items, i + 1);
  }

  lemma {:induction false} SumGrows(items: seq<Item>, i: nat)
    requires i <= |items|
    ensures Sum(items[..i]) <= Sum(items)
  {
    if i == |items| {
      assert items[..i] == items;
    } else {
      SumGrows(items[..|items| - 1], i);
      assert items[..|items| - 1][..i] == items[..i];
    }
  }

  /** Each pair has the content of an input and an output of its name, and each entry is that of a pair. */
  ghost predicate FilesMatch(entries: seq<Entry>, pairs: seq<TestPair>) {
    && |entries| == 2 * |pairs|
    && (forall k :: 0 <= k < |pairs| ==> HasInput(entries, pairs[k]) && HasOutput(entries, pairs[k]))
    && forall i :: 0 <= i < |entries| ==> InSomePair(entries[i], pairs)
  }

  ghost predicate HasInput(entries: seq<Entry>, pair: TestPair) {
    exists i :: 0 <= i < |entries| && IsInput(entries[i].name, pair.name) && entries[i].data.bytes == pair.input
  }

  ghost predicate HasOutput(entries: seq<Entry>, pair: TestPair) {
    exists i :: 0 <= i < |entries| && IsOutput(entries[i].name, pair.name) && entries[i].data.bytes == pair.output
  }

  ghost predicate InSomePair(e: Entry, pairs: seq<TestPair>) {
    exists k :: 0 <= k < |pairs| && IsOf(e, pairs[k])
  }

  predicate IsOf(e: Entry, pair: TestPair) {
    || (IsInput(e.name, pair.name) && e.data.bytes == pair.input)
    || (IsOutput(e.name, pair.name) && e.data.bytes == pair.output)
  }

  ghost predicate InNameOrder(pairs: seq<TestPair>) {
    forall j, k :: 0 <= j < k < |pairs| ==> Precedes(pairs[j].name, pairs[k].name)
  }

  lemma {:induction false} ItemInEntries(entries: seq<Entry>, x: Item) returns (i: nat)
    requires x in Items(entries)
    ensures i < |entries| && Stem(entries[i]) == x.stem && Kind(entries[i]) == x.kind && entries[i].data.bytes == x.bytes
  {
    i :| 0 <= i < |entries| && Items(entries)[i] == x;
  }

  /** What a pairing means for the entries themselves: their names and their bytes. */
  lemma {:induction false} PairingOnFiles(entries: seq<Entry>, pairs: seq<TestPair>)
    requires IsPairing(Items(entries), pairs)
    ensures FilesMatch(entries, pairs) && InNameOrder(pairs)
  {
    var items := Items(entries);
    assert |multiset(Flatten(pairs))| == |Flatten(pairs)| && |multiset(items)| == |items|;
    forall k | 0 <= k < |pairs| ensures HasInput(entries, pairs[k]) && HasOutput(entries, pairs[k]) {
      PairInEntries(entries, pairs, k);
    }
    forall i | 0 <= i < |entries| ensures InSomePair(entries[i], pairs) { EntryInPair(entries, pairs, i); }
    forall j, k | 0 <= j < k < |pairs| ensures Precedes(pairs[j].name, pairs[k].name) {
      LessIsByteOrder(pairs[j].name, pairs[k].name);
    }
  }

  lemma {:induction false} PairInEntries(entries: seq<Entry>, pairs: seq<TestPair>, k: nat)
    requires IsPairing(Items(entries), pairs) && k < |pairs|
    ensures HasInput(entries, pairs[k]) && HasOutput(entries, pairs[k])
  {
    FlattenAt(pairs, k);
    var x, y := Item(pairs[k].name, IN, pairs[k].input), Item(pairs[k].name, OUT, pairs[k].output);
    assert x in multiset(Flatten(pairs)) && y in multiset(Flatten(pairs));
    var i := ItemInEntries(entries, x);
    TestFileNames(entries[i], pairs[k].name);
    var j := ItemInEntries(entries, y);
    TestFileNames(entries[j], pairs[k].name);
  }

  lemma {:induction false} EntryInPair(entries: seq<Entry>, pairs: seq<TestPair>, i: nat)
    requires IsPairing(Items(entries), pairs) && i < |entries|
    ensures InSomePair(entries[i], pairs)
  {
    var x := Items(entries)[i];
    assert x in multiset(Items(entries));
    var k := FlatItem(pairs, x);
    TestFileNames(entries[i], pairs[k].name);
    assert IsOf(entries[i], pairs[k]);
  }

  /**
    ReadTestZIP succeeds exactly on the archives described by Readable, and then returns their
    pairing.  Accepted or not, it draws at most maxBytes + 1 bytes from the entries.
  */
  method ReadTestZIP(raw: Bytes, limits: Limits, decode: Decoder)
    returns (r: Result<seq<TestPair>, Error>, drawn: nat)
    ensures r.Ok? <==> Readable(raw, limits, decode)
    ensures r.Ok? ==> IsPairing(Items(decode(raw).value), r.value)
    ensures r.Ok? ==> FilesMatch(decode(raw).value, r.value) && InNameOrder(r.value)
    ensures r.Ok? ==> drawn == Sum(Items(decode(raw).value)) <= limits.maxBytes
    ensures drawn == 0 || drawn <= limits.maxBytes + 1
  {
    hide IsPairing, FilesMatch, InNameOrder, Matched, Complete, Distinct;
    drawn := 0;
    if limits.maxBytes <= 0 || limits.maxFiles <= 0 { return Err(BadLimits), drawn; }
    if |raw| > limits.maxBytes { return Err(TooLarge), drawn; }
    if decode(raw).None? { return Err(NotZip), drawn; }
    var entries := decode(raw).value;
    if |entries| == 0 { return Err(Empty), drawn; }
    if |entries| > limits.maxFiles { return Err(TooManyFiles), drawn; }
    var table;
    table, drawn := ReadEntries(entries, limits.maxBytes);
    if table.Err? { return Err(table.error), drawn; }
    TableMatched(Items(entries));
    r := PairUp(table.value, Items(entries));
    if r.Ok? { PairingOnFiles(entries, r.value); }
  }

  /** The checks on one entry, in the order of the loop body, ending with its bounded read. */
  function Admit(files: Table, e: Entry, remaining: int): (r: (Result<Bytes, Error>, nat))
    requires remaining >= 0
    ensures r.0.Ok? <==> EntryOk(e) && !InTable(files, Stem(e), Kind(e)) && |e.data.bytes| <= remaining
    ensures r.0.Ok? ==> r.0.value == e.data.bytes && r.1 == |e.data.bytes|
    ensures r.1 <= remaining + 1
  {
    if !ValidName(e.name) then (Err(UnsafeName), 0)
    else if !e.regular then (Err(NotRegular), 0)
    else if Kind(e) != IN && Kind(e) != OUT then (Err(Unsupported), 0)
    else if Stem(e) in files && Kind(e) in files[Stem(e)] then (Err(Duplicate), 0)
    else ReadBounded(e, remaining)
  }

  /** An entry that is not admitted makes the whole archive unsound. */
  lemma {:induction false} Spoils(entries: seq<Entry>, n: nat, maxBytes: int)
    requires n < |entries|
    requires var items := Items(entries);
      !EntryOk(entries[n]) || InTable(Fill(items[..n]), items[n].stem, items[n].kind) || Sum(items[..n + 1]) > maxBytes
    ensures !Sound(entries, maxBytes)
  {
    var items := Items(entries);
    if InTable(Fill(items[..n]), items[n].stem, items[n].kind) { ClashSpoils(items, n); }
    SumPrefix(items, n);
  }

  /** The loop of ReadTestZIP over the entries, which fills the two-level map. */
  method ReadEntries(entries: seq<Entry>, maxBytes: int) returns (r: Result<Table, Error>, drawn: nat)
    requires maxBytes > 0
    ensures r.Ok? <==> Sound(entries, maxBytes)
    ensures r.Ok? ==> r.value == Fill(Items(entries)) && drawn == Sum(Items(entries))
    ensures drawn <= maxBytes + 1
  {
    var files: Table := map[];
    var total := 0;
    drawn := 0;
    ghost var items := Items(entries);
    for i := 0 to |entries|
      invariant files == Fill(items[..i]) && Distinct(items[..i])
      invariant EachOk(entries, i)
      invariant drawn == total == Sum(items[..i]) <= maxBytes
    {
      var e := entries[i];
      assert items[i] == ItemOf(e);
      var (content, read) := Admit(files, e, maxBytes - total);
      drawn := drawn + read;
      SumPrefix(items, i);
      if content.Err? {
        Spoils(entries, i, maxBytes);
        return Err(content.error), drawn;
      }
      assert EntryOk(entries[i]);
      total := total + |content.value|;
      if total > maxBytes {
        // The entry was read within what is left of the budget.
        assert false;
      }
      files := Put(files, ItemOf(e));
      DistinctGrows(items, i);
    }
    assert items[..|entries|] == items;
    r := Ok(files);
  }

  /** The stems of the table in no particular order, as Go ranges over a map; none when one lacks a file. */
  method Stems(files: Table) returns (names: Option<seq<string>>)
    ensures names.Some? <==> Complete(files)
    ensures names.Some? ==> NoDuplicates(names.value) && forall b :: b in names.value <==> b in files
  {
    var seen: seq<string> := [];
    var left := files.Keys;
    while left != {}
      invariant left <= files.Keys
      invariant forall b :: b in seen <==> b in files && b !in left
      invariant NoDuplicates(seen)
      invariant forall b :: b in seen ==> BothThere(files, b)
    {
      var name :| name in left;
      if IN !in files[name] || OUT !in files[name] { return None; }
      seen := seen + [name];
      left := left - {name};
    }
    names := Some(seen);
  }

  method Gather(files: Table, names: seq<string>) returns (pairs: seq<TestPair>)
    requires forall b :: b in names ==> BothThere(files, b)
    ensures PairsFrom(files, names, pairs)
  {
    pairs := [];
    for i := 0 to |names|
      invariant PairsFrom(files, names[..i], pairs)
    {
      assert names[i] in names;
      pairs := pairs + [PairOf(files, names[i])];
    }
    assert names[..|names|] == names;
  }

  /** The second half of ReadTestZIP: every stem must have both files; the stems are sorted. */
  method PairUp(files: Table, ghost items: seq<Item>) returns (r: Result<seq<TestPair>, Error>)
    requires files == Fill(items) && Distinct(items)
    requires forall i :: 0 <= i < |items| ==> KindOk(items[i])
    ensures r.Ok? <==> Complete(files)
    ensures r.Ok? ==> IsPairing(items, r.value)
  {
    var stems := Stems(files);
    if stems.None? { return Err(Unpaired); }
    SortStringsSorts(stems.value);
    var names := SortStrings(stems.value);
    var pairs := Gather(files, names);
    forall i | 0 <= i < |items| ensures items[i].stem in names { EachIsStored(items, i); }
    TablePairs(items, names, pairs);
    r := Ok(pairs);
  }

  // ----- the order of the entries does not matter -----

  lemma {:induction false} SumConcat(u: seq<Item>, v: seq<Item>)
    ensures Sum(u + v) == Sum(u) + Sum(v)
  {
    if v == [] {
      assert u + v == u;
    } else {
      SumConcat(u, v[..|v| - 1]);
      assert (u + v)[..|u + v| - 1] == u + v[..|v| - 1];
    }
  }

  lemma ItemsPlus(u: seq<Entry>, v: seq<Entry>)
    ensures Items(u + v) == Items(u) + Items(v)
  {
  }

  lemma {:induction false} ItemsOfConcat(u: seq<Entry>, x: Entry, v: seq<Entry>)
    ensures multiset(Items(u + [x] + v)) == multiset(Items(u + v)) + multiset{ItemOf(x)}
    ensures Sum(Items(u + [x] + v)) == Sum(Items(u + v)) + |x.data.bytes|
  {
    var one := Items([x]);
    ItemsPlus(u + [x], v);
    ItemsPlus(u, [x]);
    ItemsPlus(u, v);
    SumConcat(Items(u) + one, Items(v));
    SumConcat(Items(u), one);
    SumConcat(Items(u), Items(v));
    assert one == [ItemOf(x)] && Sum(one[..0]) == 0;
  }

  lemma Cancel<T>(m: multiset<T>, n: multiset<T>, x: T)
    requires m + multiset{x} == n + multiset{x}
    ensures m == n
  {
    assert m == m + multiset{x} - multiset{x} && n == n + multiset{x} - multiset{x};
  }

  lemma TakeOut(s: seq<Entry>, x: Entry) returns (u: seq<Entry>, v: seq<Entry>)
    requires x in multiset(s)
    ensures s == u + [x] + v && multiset(s) == multiset(u + v) + multiset{x} && |u + v| < |s|
  {
    var j :| 0 <= j < |s| && s[j] == x;
    u, v := s[..j], s[j + 1..];
    assert s == u + [x] + v;
  }

  lemma {:induction false} ItemsPermuted(a: seq<Entry>, b: seq<Entry>)
    requires multiset(a) == multiset(b)
    ensures multiset(Items(a)) == multiset(Items(b)) && Sum(Items(a)) == Sum(Items(b))
    decreases |a|
  {
    if a == [] {
      assert |b| == |multiset(b)| == 0;
    } else {
      assert a[0] in multiset(a);
      var u, v := TakeOut(a, a[0]);
      var s, t := TakeOut(b, a[0]);
      Cancel(multiset(u + v), multiset(s + t), a[0]);
      ItemsPermuted(u + v, s + t);
      ItemsOfConcat(u, a[0], v);
      ItemsOfConcat(s, a[0], t);
    }
  }

  lemma TwicePresent<T>(s: seq<T>, i: nat, j: nat)
    requires i < j < |s| && s[i] == s[j]
    ensures multiset(s)[s[i]] >= 2
  {
    assert s == s[..i] + [s[i]] + s[i + 1..j] + [s[j]] + s[j + 1..];
  }

  lemma {:induction false} DistinctPermuted(a: seq<Item>, b: seq<Item>)
    requires multiset(a) == multiset(b) && Distinct(a)
    ensures Distinct(b)
  {
    forall i, j | 0 <= i < j < |b| ensures !SameFile(b[i], b[j]) {
      if SameFile(b[i], b[j]) {
        assert b[i] in multiset(a) && b[j] in multiset(a);
        var k :| 0 <= k < |a| && a[k] == b[i];
        var l :| 0 <= l < |a| && a[l] == b[j];
        CountOne(a, b[i]);
        TwicePresent(b, i, j);
        assert false;
      }
    }
  }

  lemma {:induction false} MatchedPermuted(a: seq<Item>, b: seq<Item>)
    requires multiset(a) == multiset(b) && Matched(a)
    ensures Matched(b)
  {
    forall i | 0 <= i < |b| ensures HasPartner(b, i) {
      assert b[i] in multiset(a);
      var k :| 0 <= k < |a| && a[k] == b[i];
      assert HasPartner(a, k);
      var l :| 0 <= l < |a| && Partners(a[k], a[l]);
      assert a[l] in multiset(b);
      var j :| 0 <= j < |b| && b[j] == a[l];
      assert Partners(b[i], b[j]);
    }
  }

  lemma {:induction false} AcceptsPermuted(a: seq<Entry>, b: seq<Entry>, limits: Limits)
    requires multiset(a) == multiset(b) && Accepts(a, limits)
    ensures Accepts(b, limits)
  {
    ItemsPermuted(a, b);
    DistinctPermuted(Items(a), Items(b));
    MatchedPermuted(Items(a), Items(b));
    assert |a| == |multiset(a)| == |b|;
    forall i | 0 <= i < |b| ensures EntryOk(b[i]) {
      assert b[i] in multiset(a);
      var k :| 0 <= k < |a| && a[k] == b[i];
    }
  }

  /** Two archives with the same entries in any order are both accepted, with the same result, or neither. */
  lemma {:induction false} OrderDoesNotMatter(a: seq<Entry>, b: seq<Entry>, limits: Limits, p: seq<TestPair>, q: seq<TestPair>)
    requires multiset(a) == multiset(b)
    ensures Accepts(a, limits) <==> Accepts(b, limits)
    ensures IsPairing(Items(a), p) && IsPairing(Items(b), q) ==> p == q
  {
    if Accepts(a, limits) { AcceptsPermuted(a, b, limits); }
    if Accepts(b, limits) { AcceptsPermuted(b, a, limits); }
    if IsPairing(Items(a), p) && IsPairing(Items(b), q) {
      ItemsPermuted(a, b);
      PairingUnique(Items(a), Items(b), p, q);
    }
  }
}
