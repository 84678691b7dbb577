/** What the retained budget refuses: files that one reader accepts and another does not. */
module GgufBudget {
  import opened Common
  import opened Text
  import opened GgufFormat
  import opened GgufAgreement
  import opened GgufRoundTrip
  import opened GgufPages

  // ----- the summary of an encoded section ----------------------------------------------------

  // Bytes of all keys and of the displays under summary keys.
  function PickedBytes(lib: Library, kvs: seq<KeyValue>): nat {
    if kvs == [] then 0
    else
      |kvs[0].key| + (if SummaryKey(kvs[0].key) then |ItemValue(lib, kvs[0].item).display| else 0)
          + PickedBytes(lib, kvs[1..])
  }

  lemma {:induction false} SummaryEntryAt(lib: Library, src: Source, pos: nat, kv: KeyValue, picked: Picked)
    requires ValidKeyValue(kv) && At(src, pos, EncodeKeyValue(kv))
    ensures var size := |kv.key| + if SummaryKey(kv.key) then |ItemValue(lib, kv.item).display| else 0;
      var r := SummaryEntry(lib, src, pos, picked);
      && (r.Ok? <==> Fits(picked.retained, size))
      && (r.Ok? ==> r.value.retained == picked.retained + size && r.next == pos + |EncodeKeyValue(kv)|)
      && (r.Err? ==> r.error == BudgetExceeded)
  {
    hide ReadKey, ReadU32, ReadValue, SkipValue, SummaryKey, EncodeKeyValue, ItemValue;
    KeyValueAt(lib, src, pos, kv);
    ValueAgrees(lib, src, pos + 8 + |kv.key| + 4, ItemCode(kv.item));
  }

  /** The summary walk over an encoded section succeeds exactly when all keys and the displays under summary keys
      fit its budget. */
  lemma {:induction false} SummaryWalkAt(lib: Library, src: Source, pos: nat, kvs: seq<KeyValue>, picked: Picked)
    requires AllValid(kvs) && At(src, pos, EncodeSection(kvs)) && picked.retained <= MAX_RETAINED_BYTES
    ensures var r := SummaryWalk(lib, src, pos, |kvs|, picked);
      && (r.Ok? <==> Fits(picked.retained, PickedBytes(lib, kvs)))
      && (r.Ok? ==> r.next == pos + |EncodeSection(kvs)|)
      && (r.Err? ==> r.error == BudgetExceeded)
    decreases |kvs|
  {
    hide SummaryEntry, SummaryKey, EncodeKeyValue, ItemValue, ValidKeyValue;
    if kvs != [] {
      AtSplit(src, pos, EncodeKeyValue(kvs[0]), EncodeSection(kvs[1..]));
      SummaryEntryAt(lib, src, pos, kvs[0], picked);
      var r := SummaryEntry(lib, src, pos, picked);
      if r.Ok? {
        SummaryWalkAt(lib, src, r.next, kvs[1..], r.value);
      }
    }
  }

  /** Of an encoded file without tensors, the full reader refuses what exceeds its budget with all displays and
      the summary reader what exceeds it with the summary's. */
  lemma {:induction false} BudgetDecides(lib: Library, version: nat, kvs: seq<KeyValue>)
    requires AllValid(kvs) && 2 <= version <= 3 && |kvs| <= 4096
        && |EncodeSection(kvs)| <= 64 * 1024 * 1024
    ensures var data := EncodeFile(version, 0, kvs, []);
      && (Inspect(lib, data).Ok? <==> RetainedBytes(lib, kvs) <= 2 * 1024 * 1024)
      && (Inspect(lib, data).Err? ==> Inspect(lib, data).error == BudgetExceeded)
      && (ReadSummary(lib, data).Ok? <==> PickedBytes(lib, kvs) <= 2 * 1024 * 1024)
  {
    hide ReadHeader, Reachable, InspectWalk, SummaryWalk, SummaryFeatures, Derive, SortByKey, EncodeSection, EncodeFile;
    hide RetainedBytes, PickedBytes, KeepAll;
    SectionIsReachable(version, 0, kvs, []);
    var src := Reachable(EncodeFile(version, 0, kvs, []), 24);
    WalkInvertsEncode(lib, src, 24, kvs, Kept([], map[], 0));
    SummaryWalkAt(lib, src, 24, kvs, Picked(map[], 0));
  }

  // ----- files with many entries ---------------------------------------------------------------

  function Letters(n: nat): (text: Bytes)
    ensures |text| == n
  {
    seq(n, i requires 0 <= i < n => 'a')
  }

  // Two capital letters that tell the numbers below 256 apart.
  function Tag(n: nat): (tag: Bytes)
    requires n < 256
    ensures |tag| == 2
  {
    [(65 + n / 16) as char, (65 + n % 16) as char]
  }

  // Numbered entries with keys of pad + 2 letters and the same item, then the last ones.
  function Padded(n: nat, pad: nat, item: Item, last: seq<KeyValue>): (kvs: seq<KeyValue>)
    requires n <= 256
    ensures |kvs| == n + |last|
    ensures forall i :: 0 <= i < n ==> kvs[i] == KeyValue(Letters(pad) + Tag(n - 1 - i), item)
    ensures kvs[n..] == last
  {
    if n == 0 then last else [KeyValue(Letters(pad) + Tag(n - 1), item)] + Padded(n - 1, pad, item, last)
  }

  lemma {:induction false} TaggedIsNoSummaryKey(pad: nat, n: nat)
    requires n < 256
    ensures !SummaryKey(Letters(pad) + Tag(n))
  {
    var key := Letters(pad) + Tag(n);
    assert key[|key| - 1] == Tag(n)[1] < 'a';
    forall i | 0 <= i < |SummarySuffixes()|
      ensures !HasSuffix(key, SummarySuffixes()[i])
    {
      var suffix := SummarySuffixes()[i];
      assert suffix != "" && suffix[|suffix| - 1] >= 'a';
      assert |suffix| <= |key| ==> key[|key| - |suffix|..][|suffix| - 1] == key[|key| - 1];
    }
    assert "general.architecture"[19] == 'e';
  }

  lemma {:induction false} OneMore(lib: Library, kv: KeyValue, kvs: seq<KeyValue>)
    requires ValidKeyValue(kv) && AllValid(kvs)
    ensures var display := |ItemValue(lib, kv.item).display|;
      && AllValid([kv] + kvs)
      && RetainedBytes(lib, [kv] + kvs) == |kv.key| + display + RetainedBytes(lib, kvs)
      && (!SummaryKey(kv.key) ==> PickedBytes(lib, [kv] + kvs) == |kv.key| + PickedBytes(lib, kvs))
      && |EncodeSection([kv] + kvs)| == 12 + |kv.key| + |EncodeItem(kv.item)| + |EncodeSection(kvs)|
  {
    hide ItemValue, SummaryKey, EncodeItem, ValidItem, Encode;
    assert ([kv] + kvs)[1..] == kvs;
  }

  lemma OneLess(n: nat, size: nat)
    ensures n * size == size + (n - 1) * size
  {
  }

  lemma {:induction false} PaddedSizes(lib: Library, n: nat, pad: nat, item: Item, last: seq<KeyValue>)
    requires n <= 256 && pad + 2 <= MAX_KEY_BYTES && ValidItem(item) && AllValid(last)
    ensures var kvs, display := Padded(n, pad, item, last), |ItemValue(lib, item).display|;
      && AllValid(kvs)
      && RetainedBytes(lib, kvs) == n * (pad + 2 + display) + RetainedBytes(lib, last)
      && PickedBytes(lib, kvs) == n * (pad + 2) + PickedBytes(lib, last)
      && |EncodeSection(kvs)| == n * (pad + 14 + |EncodeItem(item)|) + |EncodeSection(last)|
    decreases n
  {
    hide ItemValue, SummaryKey, EncodeItem, ValidItem, Letters, Tag, AllValid, RetainedBytes, PickedBytes,
        EncodeSection;
    if n > 0 {
      PaddedSizes(lib, n - 1, pad, item, last);
      TaggedIsNoSummaryKey(pad, n - 1);
      OneMore(lib, KeyValue(Letters(pad) + Tag(n - 1), item), Padded(n - 1, pad, item, last));
      OneLess(n, pad + 2 + |ItemValue(lib, item).display|);
      OneLess(n, pad + 2);
      OneLess(n, pad + 14 + |EncodeItem(item)|);
    }
  }

  // ----- a file for the summary reader only ---------------------------------------------------

  lemma {:induction false} DistinctTags(m: nat, n: nat)
    requires m < n < 256
    ensures Tag(m) != Tag(n)
  {
    assert Tag(m)[0] == Tag(n)[0] ==> m / 16 == n / 16;
  }

  lemma {:induction false} PaddedKeysAreDistinct(n: nat, pad: nat, item: Item, last: seq<KeyValue>)
    requires n <= 256 && DistinctKeys(last) && forall j :: 0 <= j < |last| ==> |last[j].key| < pad + 2
    ensures DistinctKeys(Padded(n, pad, item, last))
  {
    hide Letters, Tag;
    var kvs := Padded(n, pad, item, last);
    forall i, j | 0 <= i < j < |kvs|
      ensures kvs[i].key != kvs[j].key
    {
      if j < n {
        DistinctTags(n - 1 - j, n - 1 - i);
        assert kvs[i].key[pad..] == Tag(n - 1 - i) && kvs[j].key[pad..] == Tag(n - 1 - j);
      } else {
        assert kvs[n..][j - n] == kvs[j];
        assert i >= n ==> kvs[n..][i - n] == kvs[i];
      }
    }
  }

  function ManyWords(): seq<KeyValue> { Padded(256, 4096, One(Word(Letters(4096))), []) }

  /** 256 strings of 4096 bytes under distinct keys of 4098 bytes: the summary reader, which skips them, accepts
      the file, and the full reader runs out of its retained budget. */
  lemma {:induction false} OnlySummaryAccepts(lib: Library)
    ensures AllValid(ManyWords()) && DistinctKeys(ManyWords())
    ensures var data := EncodeFile(3, 0, ManyWords(), []);
      ReadSummary(lib, data).Ok? && Inspect(lib, data).Err? && Inspect(lib, data).error == BudgetExceeded
  {
    hide Inspect, ReadSummary, EncodeFile, Padded, RetainedBytes, PickedBytes, EncodeSection, Letters, AllValid,
        DistinctKeys;
    var item := One(Word(Letters(4096)));
    assert |EncodeItem(item)| == 4104 && |ItemValue(lib, item).display| == 4096;
    NoEntries(lib);
    PaddedSizes(lib, 256, 4096, item, []);
    PaddedKeysAreDistinct(256, 4096, item, []);
    BudgetDecides(lib, 3, ManyWords());
  }

  lemma {:induction false} NoEntries(lib: Library)
    ensures PickedBytes(lib, []) == 0 && RetainedBytes(lib, []) == 0 && |EncodeSection([])| == 0 && AllValid([])
        && DistinctKeys([])
  {
  }

  // ----- a page that does not fit ----------------------------------------------------------------

  // Bytes of the keys up to and including the i-th.
  function KeyBytes(kvs: seq<KeyValue>, i: nat): nat
    requires i < |kvs|
  {
    |kvs[0].key| + if i == 0 then 0 else KeyBytes(kvs[1..], i - 1)
  }

  /** In an encoded section the first entry with a key is located at its value. */
  lemma {:induction false} LocateAt(src: Source, pos: nat, kvs: seq<KeyValue>, i: nat)
    requires AllValid(kvs) && At(src, pos, EncodeSection(kvs)) && i < |kvs|
    requires forall j :: 0 <= j < i ==> kvs[j].key != kvs[i].key
    ensures var l := Locate(src, pos, |kvs|, kvs[i].key);
      && l.Some? && l.value.t == ItemCode(kvs[i].item) && l.value.keyBytes == KeyBytes(kvs, i)
      && At(src, l.value.pos, EncodeItem(kvs[i].item))
    decreases i
  {
    hide ReadKey, ReadU32, ReadValue, SkipValue, EncodeKeyValue, EncodeItem, ValidKeyValue, ItemCode;
    AtSplit(src, pos, EncodeKeyValue(kvs[0]), EncodeSection(kvs[1..]));
    EntryAt(src, pos, kvs[0]);
    if i > 0 {
      assert kvs[0].key != kvs[i].key;
      LocateAt(src, pos + |EncodeKeyValue(kvs[0])|, kvs[1..], i - 1);
    }
  }

  // An encoded entry, as a reader sees it that skips the value.
  lemma {:induction false} EntryAt(src: Source, pos: nat, kv: KeyValue)
    requires ValidKeyValue(kv) && At(src, pos, EncodeKeyValue(kv))
    ensures var p := pos + 8 + |kv.key|;
      && ReadKey(src, pos) == Ok(kv.key, p)
      && ReadU32(src, p) == Ok(ItemCode(kv.item), p + 4)
      && At(src, p + 4, EncodeItem(kv.item))
      && SkipValue(src, p + 4, ItemCode(kv.item)).Ok?
      && SkipValue(src, p + 4, ItemCode(kv.item)).next == pos + |EncodeKeyValue(kv)|
  {
    hide ReadKey, ReadU32, ReadValue, SkipValue, EncodeItem, ItemCode, ItemValue;
    var lib := Library(x => "", x => "", x => "", x => "", (x, y) => false);
    var p := pos + 8 + |kv.key|;
    KeyValueAt(lib, src, pos, kv);
    ValueAgrees(lib, src, p + 4, ItemCode(kv.item));
    var typed := Encode(ItemCode(kv.item), 4) + EncodeItem(kv.item);
    AtSplit(src, pos, Encode(|kv.key|, 8), kv.key + typed);
    AtSplit(src, pos + 8, kv.key, typed);
    AtSplit(src, p, Encode(ItemCode(kv.item), 4), EncodeItem(kv.item));
  }

  lemma {:induction false} PaddedKeyBytes(n: nat, pad: nat, item: Item, last: KeyValue)
    requires n <= 256
    ensures KeyBytes(Padded(n, pad, item, [last]), n) == n * (pad + 2) + |last.key|
    decreases n
  {
    hide Letters, Tag;
    if n > 0 {
      assert Padded(n, pad, item, [last])[1..] == Padded(n - 1, pad, item, [last]);
      PaddedKeyBytes(n - 1, pad, item, last);
      OneLess(n, pad + 2);
    }
  }

  // How much is asked for: at most this many at a time, and that many by default.
  function Portion(limit: nat, most: nat): nat { if 1 <= limit <= most then limit else most }

  // Where a page of that size ends.
  function PageEnd(total: nat, first: nat, size: nat): nat
    requires first <= total
  {
    if first + size <= total then first + size else total
  }

  /** The page of a value: at most 16 KiB of a string, at most 100 elements of an array, and any other value whole. */
  function PageOf(lib: Library, item: Item, offset: nat, limit: nat): Page {
    match item
    case One(s) =>
      if s.Word? then
        var total, size := |s.text|, Portion(limit, 16_384);
        var first := if offset <= total then offset else total;
        var last := PageEnd(total, first, size);
        Page("string", s.text[first..last], [], first, size, total, last < total)
      else Page(Name(TypeOf(s)), ShowScalar(lib, s), [], 0, 1, 1, false)
    case Many(t, elements) =>
      var total, size := |elements|, Portion(limit, 100);
      var first := if offset <= total then offset else total;
      var last := PageEnd(total, first, size);
      Page("array<" + Name(t) + ">", "", ShowElements(lib, elements[first..last]), first, size, total, last < total)
  }

  lemma {:induction false} StringPageAt(src: Source, pos: nat, text: Bytes, offset: nat, limit: nat)
    requires |text| <= MAX_STRING_BYTES && At(src, pos, Encode(|text|, 8) + text)
    ensures var total, size := |text|, Portion(limit, 16_384);
      var first := if offset <= total then offset else total;
      var last := PageEnd(total, first, size);
      var r := ReadStringPage(src, pos, offset, limit);
      r.Ok? && r.value == Page("string", text[first..last], [], first, size, total, last < total)
  {
    StringAt(src, pos, text);
    StringPageIsSlice(src, pos, offset, limit);
    hide ReadStringPage, StringBytes, SkipString, At;
  }

  lemma {:induction false} StringAt(src: Source, pos: nat, text: Bytes)
    requires |text| <= MAX_STRING_BYTES && At(src, pos, Encode(|text|, 8) + text)
    ensures SkipString(src, pos).Ok? && StringBytes(src, pos) == text
  {
    hide ReadUint;
    Powers();
    AtSplit(src, pos, Encode(|text|, 8), text);
    UintAt(src, pos, |text|, 8);
  }

  // The elements before the page, the page, and the others.
  lemma {:induction false} ElementsAt(lib: Library, src: Source, pos: nat, t: Type, ss: seq<Scalar>, first: nat,
      last: nat)
    requires first <= last <= |ss| && forall i :: 0 <= i < |ss| ==> ValidScalar(ss[i]) && TypeOf(ss[i]) == t
    requires At(src, pos, EncodeScalars(ss))
    ensures var skipped := SkipElements(src, pos, Code(t), first);
      && skipped.Ok?
      && ReadElements(lib, src, skipped.next, Code(t), last - first).Ok?
      && ReadElements(lib, src, skipped.next, Code(t), last - first).value == ScalarValues(lib, ss[first..last])
  {
    hide ReadElements, SkipElements, EncodeScalars, ScalarValues, ValidScalar, TypeOf, Code;
    EncodeScalarsSplit(ss, first);
    AtSplit(src, pos, EncodeScalars(ss[..first]), EncodeScalars(ss[first..]));
    ScalarsAt(lib, src, pos, t, ss[..first]);
    ElementsAgree(lib, src, pos, Code(t), first);
    var mid := pos + |EncodeScalars(ss[..first])|;
    EncodeScalarsSplit(ss[first..], last - first);
    assert ss[first..][..last - first] == ss[first..last];
    AtSplit(src, mid, EncodeScalars(ss[first..last]), EncodeScalars(ss[first..][last - first..]));
    ScalarsAt(lib, src, mid, t, ss[first..last]);
  }

  lemma {:induction false} ArrayPageAt(lib: Library, src: Source, pos: nat, t: Type, elements: seq<Scalar>, offset: nat,
      limit: nat)
    requires ValidItem(Many(t, elements)) && At(src, pos, EncodeItem(Many(t, elements)))
    ensures var r := ReadArrayPage(lib, src, pos, offset, limit);
      r.Ok? && r.value == PageOf(lib, Many(t, elements), offset, limit)
  {
    TypesAgree(t);
    ArrayHeaderAt(src, pos, t, elements);
    var first := if offset <= |elements| then offset else |elements|;
    var last := PageEnd(|elements|, first, Portion(limit, 100));
    hide ReadArrayHeader, EncodeItem, EncodeScalars, Code, Name, TypeName, ElementType, ShowElements, ScalarValues;
    hide ReadElements, SkipElements, ElementTexts, At, ReadArrayPage;
    ElementsAt(lib, src, pos + 12, t, elements, first, last);
    TextsAgree(lib, t, elements[first..last]);
    ArrayPageByParts(lib, src, pos, Code(t), |elements|, offset, limit, first, last);
  }

  // The parts of an array page, read one after the other.
  lemma {:induction false} ArrayPageByParts(lib: Library, src: Source, pos: nat, t: nat, total: nat, offset: nat,
      limit: nat, first: nat, last: nat)
    requires pos + 12 <= |src.data| && ReadArrayHeader(src, pos) == Ok((t, total), pos + 12) && ElementType(t)
    requires first == if offset <= total then offset else total
    requires last == PageEnd(total, first, Portion(limit, 100))
    requires var skipped := SkipElements(src, pos + 12, t, first);
      skipped.Ok? && ReadElements(lib, src, skipped.next, t, last - first).Ok?
    ensures var r, skipped := ReadArrayPage(lib, src, pos, offset, limit), SkipElements(src, pos + 12, t, first);
      var texts := ElementTexts(lib, t, ReadElements(lib, src, skipped.next, t, last - first).value);
      && r.Ok?
      && r.value == Page("array<" + TypeName(t) + ">", "", texts, first, Portion(limit, 100), total, last < total)
  {
    hide ReadArrayHeader, ElementType, ReadElements, SkipElements, TypeName;
  }

  lemma {:induction false} PageAt(lib: Library, src: Source, pos: nat, item: Item, offset: nat, limit: nat)
    requires ValidItem(item) && At(src, pos, EncodeItem(item))
    ensures var r := ReadPage(lib, src, pos, ItemCode(item), offset, limit);
      r.Ok? && r.value == PageOf(lib, item, offset, limit)
  {
    hide ReadStringPage, ReadArrayPage, ReadArray, ReadScalar, ShowElements, FormatInt, ShowMany, ShowScalar;
    match item
    case One(s) =>
      TypesAgree(TypeOf(s));
      if s.Word? {
        StringPageAt(src, pos, s.text, offset, limit);
      } else {
        ItemAt(lib, src, pos, item);
        FixedScalar(s);
      }
    case Many(t, elements) => ArrayPageAt(lib, src, pos, t, elements, offset, limit);
  }

  lemma {:induction false} FixedScalar(s: Scalar)
    requires ValidScalar(s) && !s.Word?
    ensures Code(TypeOf(s)) != 8 && Code(TypeOf(s)) != 9
  {
  }

  /** A value of an encoded file, asked for page by page: its page is returned exactly when it fits the retained budget
      together with all keys up to its own. */
  lemma {:induction false} PageOfEncoded(lib: Library, kvs: seq<KeyValue>, i: nat, offset: nat, limit: nat)
    requires AllValid(kvs) && DistinctKeys(kvs) && |kvs| <= 4096 && |EncodeSection(kvs)| <= 64 * 1024 * 1024
    requires i < |kvs| && TrimSpace(kvs[i].key) == kvs[i].key != "" && RetainedBytes(lib, kvs) <= 2 * 1024 * 1024
    ensures var page := PageOf(lib, kvs[i].item, offset, limit);
      var r := ReadValuePage(lib, EncodeFile(3, 0, kvs, []), kvs[i].key, offset, limit);
      if KeyBytes(kvs, i) + |page.value| + TotalLength(page.items) <= 2 * 1024 * 1024 then r.Ok? && r.value == page
      else r.Err? && r.error == BudgetExceeded
  {
    hide Inspect, ReadValuePage, ReadHeader, Reachable, InspectWalk, EncodeFile, EncodeSection, EncodeItem, KeyBytes;
    hide RetainedBytes, PickedBytes, ReadPage, TrimSpace, Encode, PageOf, Locate, ItemCode, TotalLength;
    var data := EncodeFile(3, 0, kvs, []);
    BudgetDecides(lib, 3, kvs);
    SectionIsReachable(3, 0, kvs, []);
    LocateAt(Reachable(data, 24), 24, kvs, i);
    PageAgreesWithInspect(lib, data, kvs[i].key, offset, limit);
    assert LocateInFile(data, kvs[i].key) == Locate(Reachable(data, 24), 24, |kvs|, kvs[i].key);
    PageAt(lib, Reachable(data, 24), LocateInFile(data, kvs[i].key).value.pos, kvs[i].item, offset, limit);
  }

  function ManyKeys(): seq<KeyValue> {
    Padded(32, 65278, One(Int(UInt8, 0)), [KeyValue("k", One(Word(Letters(16384))))])
  }

  /** 32 numbers under distinct keys of 65280 bytes and then a string of 16384 bytes: the full reader accepts the
      file, the page of the whole string is refused for the budget that the keys before it have used up, and
      pages of 4096 bytes are returned. */
  lemma {:induction false} PageIsRefused(lib: Library)
    ensures AllValid(ManyKeys()) && DistinctKeys(ManyKeys())
    ensures var data := EncodeFile(3, 0, ManyKeys(), []);
      && Inspect(lib, data).Ok?
      && ReadValuePage(lib, data, "k", 0, 0).Err? && ReadValuePage(lib, data, "k", 0, 0).error == BudgetExceeded
      && ReadValuePage(lib, data, "k", 0, 4096).Ok?
  {
    hide Inspect, ReadValuePage, EncodeFile, Padded, RetainedBytes, PickedBytes, EncodeSection, Letters, AllValid,
        DistinctKeys, KeyBytes, TrimSpace;
    var item, last := One(Int(UInt8, 0)), KeyValue("k", One(Word(Letters(16384))));
    SizesOfLast(lib);
    PaddedSizes(lib, 32, 65278, item, [last]);
    PaddedKeysAreDistinct(32, 65278, item, [last]);
    PaddedKeyBytes(32, 65278, item, last);
    assert ManyKeys()[32] == ManyKeys()[32..][0] == last;
    NothingToTrim("k");
    BudgetDecides(lib, 3, ManyKeys());
    PageOfEncoded(lib, ManyKeys(), 32, 0, 0);
    PageOfEncoded(lib, ManyKeys(), 32, 0, 4096);
  }

  lemma {:induction false} SizesOfLast(lib: Library)
    ensures var item, kvs := One(Int(UInt8, 0)), [KeyValue("k", One(Word(Letters(16384))))];
      && ValidItem(item) && |ItemValue(lib, item).display| == 1 && |EncodeItem(item)| == 1
      && AllValid(kvs) && DistinctKeys(kvs) && RetainedBytes(lib, kvs) == 4100 && |EncodeSection(kvs)| == 16405
  {
    hide Letters, Encode, SummaryKey;
    Powers();
    NoEntries(lib);
    OneMore(lib, KeyValue("k", One(Word(Letters(16384)))), []);
    assert [KeyValue("k", One(Word(Letters(16384))))] + [] == [KeyValue("k", One(Word(Letters(16384))))];
  }
}
