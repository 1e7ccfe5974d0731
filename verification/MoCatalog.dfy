/** Compiling a catalog to a GNU MO file. Strings are the bytes they are encoded to; UTF-8 keeps
    the order of code points, so sorting the bytes sorts the strings. */
module MoCatalog {

  datatype Option<+T> = None | Some(value: T)

  type byte = x: int | 0 <= x < 256

  type Bytes = seq<byte>

  const WORDS := 0x1_0000_0000
  const MAGIC := 0x950412DE

  // --- Sorted keys ------------------------------------------------------------------------------

  predicate Less(a: Bytes, b: Bytes) {
    b != [] && (a == [] || a[0] < b[0] || (a[0] == b[0] && Less(a[1..], b[1..])))
  }

  /** One is a proper start of the other, or lower at their first difference. */
  ghost predicate DiffersFirstAt(a: Bytes, b: Bytes, k: nat) {
    k <= |a| && k < |b| && (forall j | 0 <= j < k :: a[j] == b[j]) && (k == |a| || a[k] < b[k])
  }

  /** Keys are in the order of their bytes. */
  lemma {:induction false} LessIsLexicographic(a: Bytes, b: Bytes)
    ensures Less(a, b) <==> exists k: nat :: DiffersFirstAt(a, b, k)
  {
    if a != [] && b != [] && a[0] == b[0] {
      LessIsLexicographic(a[1..], b[1..]);
      if k: nat :| DiffersFirstAt(a[1..], b[1..], k) {
        assert forall j | 0 <= j < k + 1 :: j == 0 || (a[j] == a[1..][j - 1] && b[j] == b[1..][j - 1]);
        assert DiffersFirstAt(a, b, k + 1);
      }
      if k: nat :| DiffersFirstAt(a, b, k) {
        assert DiffersFirstAt(a[1..], b[1..], k - 1);
      }
    } else if b != [] && (a == [] || a[0] < b[0]) {
      assert DiffersFirstAt(a, b, 0);
    }
  }

  lemma {:induction false} LessOrders(a: Bytes, b: Bytes)
    ensures !(Less(a, b) && Less(b, a)) && (a != b ==> Less(a, b) || Less(b, a))
  {
    if a != [] && b != [] && a[0] == b[0] {
      LessOrders(a[1..], b[1..]);
      assert a == [a[0]] + a[1..] && b == [b[0]] + b[1..];
    }
  }

  lemma {:induction false} LessChains(a: Bytes, b: Bytes, c: Bytes)
    requires Less(a, b) && Less(b, c)
    ensures Less(a, c)
  {
    if a != [] && a[0] == b[0] && b[0] == c[0] { LessChains(a[1..], b[1..], c[1..]); }
  }

  ghost predicate Increasing(keys: seq<Bytes>) {
    forall i, j | 0 <= i < j < |keys| :: Less(keys[i], keys[j])
  }

  ghost predicate SortedKeys(keys: seq<Bytes>, all: set<Bytes>) {
    Increasing(keys) && forall key :: key in keys <==> key in all
  }

  /** sorted() of a dictionary's keys. */
  method Sorted(all: set<Bytes>) returns (keys: seq<Bytes>)
    ensures SortedKeys(keys, all)
  {
    keys := [];
    var left := all;
    while left != {}
      invariant left <= all && SortedKeys(keys, all - left)
      decreases left
    {
      var key :| key in left;
      var at := 0;
      while at < |keys| && Less(keys[at], key)
        invariant at <= |keys| && forall i | 0 <= i < at :: Less(keys[i], key)
      {
        at := at + 1;
      }
      Inserts(keys, all - left, key, at);
      keys := keys[..at] + [key] + keys[at..];
      left := left - {key};
      assert all - left == (all - (left + {key})) + {key};
    }
    assert all - left == all;
  }

  lemma Inserts(keys: seq<Bytes>, all: set<Bytes>, key: Bytes, at: nat)
    requires SortedKeys(keys, all) && key !in all && at <= |keys|
    requires (forall i | 0 <= i < at :: Less(keys[i], key)) && (at < |keys| ==> !Less(keys[at], key))
    ensures SortedKeys(keys[..at] + [key] + keys[at..], all + {key})
  {
    var result := keys[..at] + [key] + keys[at..];
    forall j | at <= j < |keys| ensures Less(key, keys[j]) {
      assert keys[at] in keys && keys[j] in keys;
      LessOrders(keys[at], key);
      if j > at { LessChains(key, keys[at], keys[j]); }
    }
    forall i, j | 0 <= i < j < |result| ensures Less(result[i], result[j]) {
      assert result[i] == if i < at then keys[i] else if i == at then key else keys[i - 1];
      assert result[j] == if j < at then keys[j] else if j == at then key else keys[j - 1];
    }
    forall k ensures k in result <==> k in all + {key} {
      assert keys == keys[..at] + keys[at..];
    }
  }

  // --- Words ------------------------------------------------------------------------------------

  /** `k` bytes, the least first; numbers of up to four bytes fit a word. */
  function Little(n: nat, k: nat): (bytes: Bytes)
    ensures |bytes| == k
  {
    if k == 0 then [] else [n % 256] + Little(n / 256, k - 1)
  }

  function Decode(bytes: Bytes): nat {
    if bytes == [] then 0 else bytes[0] as nat + 256 * Decode(bytes[1..])
  }

  function Size(k: nat): nat {
    if k == 0 then 1 else 256 * Size(k - 1)
  }

  lemma {:induction false} DecodesLittle(n: nat, k: nat)
    requires n < Size(k)
    ensures Decode(Little(n, k)) == n
  {
    if k > 0 {
      DecodesLittle(n / 256, k - 1);
      assert Little(n, k)[1..] == Little(n / 256, k - 1);
    }
  }

  lemma WordsHaveFourBytes()
    ensures Size(4) == WORDS
  {
    assert Size(1) == 256 && Size(2) == 65536 && Size(3) == 16777216;
  }

  predicate Packs(words: seq<nat>) {
    forall i | 0 <= i < |words| :: words[i] < WORDS
  }

  function Flat(words: seq<nat>): (bytes: Bytes)
    requires Packs(words)
    ensures |bytes| == 4 * |words|
  {
    if words == [] then [] else Flat(words[..|words| - 1]) + Little(words[|words| - 1], 4)
  }

  /** The little-endian word at a place of a file, if the file goes that far. */
  function Word(file: Bytes, at: nat): Option<nat> {
    if at + 4 > |file| then None
    else Some(Decode(file[at..at + 4]))
  }

  lemma WordBefore(a: Bytes, b: Bytes, at: nat)
    requires at + 4 <= |a|
    ensures Word(a + b, at) == Word(a, at)
  {
    assert (a + b)[at..at + 4] == a[at..at + 4];
  }

  lemma WordAfter(a: Bytes, b: Bytes)
    requires |b| == 4
    ensures Word(a + b, |a|) == Some(Decode(b))
  {
    assert (a + b)[|a|..|a| + 4] == b;
  }

  lemma {:induction false} FlatReads(words: seq<nat>, i: nat)
    requires Packs(words) && i < |words|
    ensures Word(Flat(words), 4 * i) == Some(words[i])
  {
    var before, last := words[..|words| - 1], words[|words| - 1];
    if i == |before| {
      WordsHaveFourBytes();
      DecodesLittle(last, 4);
      WordAfter(Flat(before), Little(last, 4));
    } else {
      FlatReads(before, i);
      WordBefore(Flat(before), Little(last, 4), 4 * i);
    }
  }

  // --- The file ---------------------------------------------------------------------------------

  /** The strings, each with a NUL after it. */
  function Blob(items: seq<Bytes>): Bytes {
    if items == [] then [] else Blob(items[..|items| - 1]) + items[|items| - 1] + [0]
  }

  /** Length and place of each string. */
  function Table(items: seq<Bytes>, start: nat): seq<nat> {
    if items == [] then []
    else
      var before := items[..|items| - 1];
      Table(before, start) + [|items[|items| - 1]|, start + |Blob(before)|]
  }

  function Head(count: nat): seq<nat> {
    [MAGIC, 0, count, 7 * 4, 7 * 4 + 8 * count, 0, 0]
  }

  function Values(keys: seq<Bytes>, catalog: map<Bytes, Bytes>): (values: seq<Bytes>)
    requires forall key | key in keys :: key in catalog
    ensures |values| == |keys| && forall i | 0 <= i < |keys| :: values[i] == catalog[keys[i]]
  {
    seq(|keys|, i requires 0 <= i < |keys| => catalog[keys[i]])
  }

  function Start(count: nat): nat {
    7 * 4 + 16 * count
  }

  function Words(keys: seq<Bytes>, values: seq<Bytes>): seq<nat> {
    Head(|keys|) + Table(keys + values, Start(|keys|))
  }

  /** The header entry and the translations that are not empty. */
  function CatalogOf(header: Bytes, translations: map<Bytes, Bytes>): map<Bytes, Bytes> {
    map[[] := header] + map key | key in translations && translations[key] != [] :: translations[key]
  }

  function File(keys: seq<Bytes>, values: seq<Bytes>): Bytes
    requires Packs(Words(keys, values))
  {
    Flat(Words(keys, values)) + Blob(keys + values)
  }

  /** compile_mo; packing a number of 2^32 or more is an error. */
  method CompileMo(header: Bytes, translations: map<Bytes, Bytes>) returns (file: Option<Bytes>, ghost keys: seq<Bytes>)
    ensures SortedKeys(keys, CatalogOf(header, translations).Keys)
    ensures var values := Values(keys, CatalogOf(header, translations));
      file == if Packs(Words(keys, values)) then Some(File(keys, values)) else None
    ensures file.Some? ==> ReadMo(file.value) == Some(CatalogOf(header, translations))
    ensures file.Some? ==> |file.value| >= 8 && file.value[..8] == [0xDE, 0x12, 0x04, 0x95, 0, 0, 0, 0]
    ensures file.Some? ==> forall key ::
      && (key in ReadMo(file.value).value <==> key == [] || (key in translations && translations[key] != []))
      && (key in ReadMo(file.value).value ==>
          ReadMo(file.value).value[key] ==
            if key in translations && translations[key] != [] then translations[key] else header)
  {
    var catalog := CatalogOf(header, translations);
    var originals := Sorted(catalog.Keys);
    keys := originals;
    file := Assemble(originals, Values(originals, catalog));
    if file.Some? {
      ReadUndoesCompile(catalog, keys);
      StartsWithMagic(Words(keys, Values(keys, catalog)), Blob(keys + Values(keys, catalog)));
    }
  }

  /** The magic number of little-endian files comes first, and then the version, zero. */
  lemma StartsWithMagic(words: seq<nat>, blob: Bytes)
    requires Packs(words) && |words| >= 2 && words[0] == MAGIC && words[1] == 0
    ensures (Flat(words) + blob)[..8] == [0xDE, 0x12, 0x04, 0x95, 0, 0, 0, 0]
  {
    FirstWords(words);
    assert Little(0, 4) == [0, 0, 0, 0] by { FourBytes(0); }
    FourBytes(MAGIC);
    assert (Flat(words) + blob)[..8] == Flat(words)[..8];
  }

  lemma FourBytes(n: nat)
    ensures Little(n, 4) == [n % 256, n / 256 % 256, n / 256 / 256 % 256, n / 256 / 256 / 256 % 256]
  {
    assert Little(n / 256 / 256 / 256, 1) == [n / 256 / 256 / 256 % 256];
    assert Little(n / 256 / 256, 2) == [n / 256 / 256 % 256] + Little(n / 256 / 256 / 256, 1);
    assert Little(n / 256, 3) == [n / 256 % 256] + Little(n / 256 / 256, 2);
  }

  lemma {:induction false} FirstWords(words: seq<nat>)
    requires Packs(words) && |words| >= 2
    ensures Flat(words)[..8] == Little(words[0], 4) + Little(words[1], 4)
    decreases |words|
  {
    var before, last := words[..|words| - 1], words[|words| - 1];
    if |words| == 2 {
      assert before == [words[0]] && before[..0] == [] && Flat([]) == [];
      assert Flat(before) == Flat([]) + Little(words[0], 4) == Little(words[0], 4);
    } else {
      FirstWords(before);
      assert Flat(words)[..8] == Flat(before)[..8];
    }
  }

  lemma {:induction false} TableStaysInFile(items: seq<Bytes>, start: nat)
    ensures |Table(items, start)| == 2 * |items|
    ensures forall i | 0 <= i < |Table(items, start)| :: Table(items, start)[i] <= start + |Blob(items)|
    decreases |items|
  {
    if items != [] {
      TableStaysInFile(items[..|items| - 1], start);
    }
  }

  /** A file of less than 4 GiB is always written. */
  lemma SmallFilesFit(keys: seq<Bytes>, values: seq<Bytes>)
    requires |keys| == |values| && 7 * 4 + 16 * |keys| + |Blob(keys + values)| < 0x1_0000_0000
    ensures Packs(Words(keys, values)) && |File(keys, values)| == 7 * 4 + 16 * |keys| + |Blob(keys + values)|
  {
    TableStaysInFile(keys + values, Start(|keys|));
    assert Packs(Head(|keys|));
    assert |Words(keys, values)| == 7 + 4 * |keys|;
  }

  method Assemble(originals: seq<Bytes>, translated: seq<Bytes>) returns (file: Option<Bytes>)
    requires |originals| == |translated|
    ensures file == if Packs(Words(originals, translated)) then Some(File(originals, translated)) else None
  {
    var count := |originals|;
    var table, blob := LayOut(originals, translated);
    var words := [MAGIC, 0, count, 7 * 4, 7 * 4 + 8 * count, 0, 0] + table;
    if exists i :: 0 <= i < |words| && words[i] >= WORDS {
      return None;
    }
    return Some(Flat(words) + blob);
  }

  method LayOut(originals: seq<Bytes>, translated: seq<Bytes>) returns (table: seq<nat>, blob: Bytes)
    requires |originals| == |translated|
    ensures table == Table(originals + translated, Start(|originals|)) && blob == Blob(originals + translated)
  {
    var start := 7 * 4 + 16 * |originals|;
    table, blob := [], [];
    ghost var laid: seq<Bytes> := [];
    for half := 0 to 2
      invariant laid == if half == 0 then [] else if half == 1 then originals else originals + translated
      invariant table == Table(laid, start) && blob == Blob(laid)
    {
      var strings := if half == 0 then originals else translated;
      table, blob := LayOutAfter(laid, strings, start, table, blob);
      laid := laid + strings;
    }
  }

  /** The inner loop: one list of strings after those already laid out. */
  method LayOutAfter(ghost before: seq<Bytes>, strings: seq<Bytes>, start: nat, table: seq<nat>, blob: Bytes)
    returns (longer: seq<nat>, larger: Bytes)
    requires table == Table(before, start) && blob == Blob(before)
    ensures longer == Table(before + strings, start) && larger == Blob(before + strings)
  {
    longer, larger := table, blob;
    ghost var laid := before;
    for i := 0 to |strings|
      invariant laid == before + strings[..i]
      invariant longer == Table(laid, start) && larger == Blob(laid)
    {
      var item := strings[i];
      LaysOne(laid, item, start);
      longer := longer + [|item|, start + |larger|];
      larger := larger + item + [0];
      laid := laid + [item];
    }
    assert strings[..|strings|] == strings;
  }

  lemma LaysOne(laid: seq<Bytes>, item: Bytes, start: nat)
    ensures Table(laid + [item], start) == Table(laid, start) + [|item|, start + |Blob(laid)|]
    ensures Blob(laid + [item]) == Blob(laid) + item + [0]
  {
    assert (laid + [item])[..|laid|] == laid;
  }

  // --- Reading the file -------------------------------------------------------------------------

  /** Where a file keeps its words. */
  type Reader = nat -> Option<nat>

  function ReaderOf(file: Bytes): Reader {
    at => Word(file, at)
  }

  /** The string that entry `i` of the table at `table` points to: a length, then a place. */
  function Entry(file: Bytes, word: Reader, table: nat, i: nat): Option<Bytes> {
    var length, place := word(table + 8 * i), word(table + 8 * i + 4);
    if length.None? || place.None? || place.value + length.value >= |file| || file[place.value + length.value] != 0
      then None
    else Some(file[place.value..place.value + length.value])
  }

  /** The map of the first `n` keys and values. */
  function Gather(file: Bytes, word: Reader, originals: nat, translations: nat, n: nat): Option<map<Bytes, Bytes>> {
    if n == 0 then Some(map[])
    else
      var before := Gather(file, word, originals, translations, n - 1);
      var key, value := Entry(file, word, originals, n - 1), Entry(file, word, translations, n - 1);
      if before.None? || key.None? || value.None? then None else Some(before.value[key.value := value.value])
  }

  /** Reading an MO file as its format says: the number of strings is the third word, and the
      fourth and fifth say where the two tables are. */
  function ReadWith(file: Bytes, word: Reader): Option<map<Bytes, Bytes>> {
    if word(0) != Some(MAGIC) || word(4) != Some(0) || word(8).None? || word(12).None? || word(16).None? then None
    else Gather(file, word, word(12).value, word(16).value, word(8).value)
  }

  function ReadMo(file: Bytes): Option<map<Bytes, Bytes>> {
    ReadWith(file, ReaderOf(file))
  }

  lemma {:induction false} TableReads(items: seq<Bytes>, start: nat, i: nat)
    requires i < |items|
    ensures |Table(items, start)| == 2 * |items|
    ensures Table(items, start)[2 * i] == |items[i]| && Table(items, start)[2 * i + 1] == start + |Blob(items[..i])|
  {
    var before := items[..|items| - 1];
    if i < |before| {
      TableReads(before, start, i);
      assert before[..i] == items[..i];
    } else if |before| > 0 {
      TableReads(before, start, 0);
      assert before == items[..i];
    }
  }

  lemma {:induction false} BlobReads(items: seq<Bytes>, i: nat)
    requires i < |items|
    ensures var blob, at, length := Blob(items), |Blob(items[..i])|, |items[i]|;
      && at + length < |blob| && blob[at..at + length] == items[i] && blob[at + length] == 0
      && |Blob(items[..i + 1])| == at + length + 1
  {
    var before, last := items[..|items| - 1], items[|items| - 1];
    assert items[..i + 1][..i] == items[..i];
    if i < |before| {
      BlobReads(before, i);
      assert before[..i] == items[..i];
      var at, length := |Blob(items[..i])|, |items[i]|;
      assert Blob(items)[at..at + length] == Blob(before)[at..at + length];
    } else {
      assert before == items[..i] && items[..i + 1] == items;
    }
  }

  predicate WordIs(word: Reader, i: nat, n: nat) {
    word(4 * i) == Some(n)
  }

  ghost predicate HoldsWords(word: Reader, words: seq<nat>) {
    forall i | 0 <= i < |words| :: WordIs(word, i, words[i])
  }

  lemma FileWords(words: seq<nat>, blob: Bytes)
    requires Packs(words)
    ensures HoldsWords(ReaderOf(Flat(words) + blob), words)
  {
    forall i | 0 <= i < |words| ensures WordIs(ReaderOf(Flat(words) + blob), i, words[i]) {
      FlatReads(words, i);
      WordBefore(Flat(words), blob, 4 * i);
    }
  }

  /** Every table entry addresses exactly its string. */
  lemma EntryReads(keys: seq<Bytes>, values: seq<Bytes>, table: nat, i: nat, j: nat, word: Reader)
    requires |keys| == |values| && j < 2 * |keys| && Packs(Words(keys, values)) && table + 8 * i == 7 * 4 + 8 * j
    requires HoldsWords(word, Words(keys, values))
    ensures Entry(File(keys, values), word, table, i) == Some((keys + values)[j])
  {
    var items, words, start := keys + values, Words(keys, values), Start(|keys|);
    TableReads(items, start, j);
    assert |words| == 7 + 4 * |keys|;
    assert words[7 + 2 * j] == Table(items, start)[2 * j];
    assert words[7 + 2 * j + 1] == Table(items, start)[2 * j + 1];
    BlobReads(items, j);
    var at, length := |Blob(items[..j])|, |items[j]|;
    StringInside(Flat(words), Blob(items), at, length);
    EntryPlaces(File(keys, values), words, table, i, j, start + at, length, word);
  }

  lemma EntryPlaces(file: Bytes, words: seq<nat>, table: nat, i: nat, j: nat, place: nat, length: nat, word: Reader)
    requires HoldsWords(word, words) && 7 + 2 * j + 1 < |words| && table + 8 * i == 7 * 4 + 8 * j
    requires words[7 + 2 * j] == length && words[7 + 2 * j + 1] == place
    requires place + length < |file| && file[place + length] == 0
    ensures Entry(file, word, table, i) == Some(file[place..place + length])
  {
    assert WordIs(word, 7 + 2 * j, length) && WordIs(word, 7 + 2 * j + 1, place);
  }

  lemma StringInside(a: Bytes, b: Bytes, at: nat, length: nat)
    requires at + length < |b|
    ensures (a + b)[|a| + at..|a| + at + length] == b[at..at + length] && (a + b)[|a| + at + length] == b[at + length]
  {
  }

  ghost predicate Holds(file: Bytes, word: Reader, table: nat, strings: seq<Bytes>) {
    forall i | 0 <= i < |strings| :: Entry(file, word, table, i) == Some(strings[i])
  }

  ghost function MapOf(keys: seq<Bytes>, values: seq<Bytes>, n: nat): map<Bytes, Bytes>
    requires n <= |keys| == |values|
  {
    if n == 0 then map[] else MapOf(keys, values, n - 1)[keys[n - 1] := values[n - 1]]
  }

  lemma {:induction false} Gathers(file: Bytes, word: Reader, originals: nat, translations: nat, keys: seq<Bytes>,
                                   values: seq<Bytes>, n: nat)
    requires n <= |keys| == |values| && Holds(file, word, originals, keys) && Holds(file, word, translations, values)
    ensures Gather(file, word, originals, translations, n) == Some(MapOf(keys, values, n))
    decreases n
  {
    if n > 0 { Gathers(file, word, originals, translations, keys, values, n - 1); }
  }

  lemma {:induction false} MapOfHolds(keys: seq<Bytes>, catalog: map<Bytes, Bytes>, n: nat)
    requires n <= |keys| && forall key | key in keys :: key in catalog
    ensures forall key | key in MapOf(keys, Values(keys, catalog), n) ::
      key in catalog && MapOf(keys, Values(keys, catalog), n)[key] == catalog[key]
    ensures forall i | 0 <= i < n :: keys[i] in MapOf(keys, Values(keys, catalog), n)
  {
    if n > 0 {
      MapOfHolds(keys, catalog, n - 1);
      assert keys[n - 1] in keys;
    }
  }

  /** A compiled file reads back as the catalog: the header and every translation that is not
      empty, under its own key and no other. */
  lemma ReadUndoesCompile(catalog: map<Bytes, Bytes>, keys: seq<Bytes>)
    requires SortedKeys(keys, catalog.Keys) && Packs(Words(keys, Values(keys, catalog)))
    ensures ReadMo(File(keys, Values(keys, catalog))) == Some(catalog)
  {
    var values := Values(keys, catalog);
    FileWords(Words(keys, values), Blob(keys + values));
    FileReads(keys, values, ReaderOf(File(keys, values)));
    MapOfHolds(keys, catalog, |keys|);
    var all := MapOf(keys, values, |keys|);
    forall key | key in catalog ensures key in all {
      assert key in catalog.Keys && key in keys;
    }
    assert all == catalog;
  }

  lemma FileReads(keys: seq<Bytes>, values: seq<Bytes>, word: Reader)
    requires |keys| == |values| && Packs(Words(keys, values)) && HoldsWords(word, Words(keys, values))
    ensures ReadWith(File(keys, values), word) == Some(MapOf(keys, values, |keys|))
  {
    TablesHold(keys, values, word);
    HeadHolds(keys, values, word);
    HeadReads(File(keys, values), word, 7 * 4, 7 * 4 + 8 * |keys|, keys, values);
  }

  lemma TablesHold(keys: seq<Bytes>, values: seq<Bytes>, word: Reader)
    requires |keys| == |values| && Packs(Words(keys, values)) && HoldsWords(word, Words(keys, values))
    ensures Holds(File(keys, values), word, 7 * 4, keys) && Holds(File(keys, values), word, 7 * 4 + 8 * |keys|, values)
  {
    forall i | 0 <= i < |keys|
      ensures Entry(File(keys, values), word, 7 * 4, i) == Some(keys[i])
      ensures Entry(File(keys, values), word, 7 * 4 + 8 * |keys|, i) == Some(values[i])
    {
      EntryReads(keys, values, 7 * 4, i, i, word);
      EntryReads(keys, values, 7 * 4 + 8 * |keys|, i, |keys| + i, word);
    }
  }

  lemma HeadHolds(keys: seq<Bytes>, values: seq<Bytes>, word: Reader)
    requires HoldsWords(word, Words(keys, values))
    ensures WordIs(word, 0, MAGIC) && WordIs(word, 1, 0) && WordIs(word, 2, |keys|)
    ensures WordIs(word, 3, 7 * 4) && WordIs(word, 4, 7 * 4 + 8 * |keys|)
  {
    var words := Words(keys, values);
    assert words[0] == MAGIC && words[1] == 0 && words[2] == |keys| && words[3] == 7 * 4
      && words[4] == 7 * 4 + 8 * |keys|;
  }

  lemma HeadReads(file: Bytes, word: Reader, originals: nat, translations: nat, keys: seq<Bytes>, values: seq<Bytes>)
    requires |keys| == |values| && Holds(file, word, originals, keys) && Holds(file, word, translations, values)
    requires WordIs(word, 0, MAGIC) && WordIs(word, 1, 0) && WordIs(word, 2, |keys|)
    requires WordIs(word, 3, originals) && WordIs(word, 4, translations)
    ensures ReadWith(file, word) == Some(MapOf(keys, values, |keys|))
  {
    Gathers(file, word, originals, translations, keys, values, |keys|);
  }

  /** The seven words a file begins with; it has no hash table. */
  lemma FilesBeginWithTheirHeader(keys: seq<Bytes>, values: seq<Bytes>)
    requires |keys| == |values| && Packs(Words(keys, values))
    ensures var file := File(keys, values);
      && Word(file, 0) == Some(0x950412DE) && Word(file, 4) == Some(0) && Word(file, 8) == Some(|keys|)
      && Word(file, 12) == Some(28) && Word(file, 16) == Some(28 + 8 * |keys|)
      && Word(file, 20) == Some(0) && Word(file, 24) == Some(0)
  {
    var words, word := Words(keys, values), ReaderOf(File(keys, values));
    FileWords(words, Blob(keys + values));
    HeadHolds(keys, values, word);
    assert words[5] == 0 && words[6] == 0;
    assert WordIs(word, 5, 0) && WordIs(word, 6, 0);
  }

  /** The strings fill the file from the end of the tables to its own end, one after the other. */
  lemma StringsTile(keys: seq<Bytes>, values: seq<Bytes>, i: nat)
    requires |keys| == |values| && i < 2 * |keys| && Packs(Words(keys, values))
    ensures var items, words, file := keys + values, Words(keys, values), File(keys, values);
      && |words| == 7 + 4 * |keys|
      && (i == 0 ==> words[8] == 4 * |words|)
      && var end := words[7 + 2 * i + 1] + words[7 + 2 * i] + 1;
         if i + 1 < 2 * |keys| then words[7 + 2 * (i + 1) + 1] == end else |file| == end
  {
    var items, start := keys + values, Start(|keys|);
    TableReads(items, start, i);
    BlobReads(items, i);
    if i + 1 < 2 * |keys| {
      TableReads(items, start, i + 1);
    } else {
      assert items[..i + 1] == items;
    }
  }
}
