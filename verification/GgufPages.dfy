/** Paging through one metadata value. */
module GgufPages {
  import opened Common
  import opened Text
  import opened GgufFormat
  import opened GgufAgreement

  // ----- one page is a slice ---------------------------------------------------------------

  // The bytes of the string value encoded at pos.
  function StringBytes(src: Source, pos: nat): Bytes
    requires pos <= |src.data| && SkipString(src, pos).Ok?
  {
    var n := ReadU64(src, pos).value;
    src.data[pos + 8..pos + 8 + n]
  }

  lemma {:induction false} StringPageIsSlice(src: Source, pos: nat, offset: nat, limit: nat)
    requires pos <= |src.data| && SkipString(src, pos).Ok?
    ensures var text, r := StringBytes(src, pos), ReadStringPage(src, pos, offset, limit);
      && r.Ok?
      && r.value.offset == Min(offset, |text|) && r.value.total == |text|
      && |r.value.value| == Min(PageLimit(limit, MAX_PAGE_STRING_BYTES), |text| - r.value.offset)
      && r.value.value == text[r.value.offset..r.value.offset + |r.value.value|]
      && (r.value.hasMore <==> r.value.offset + |r.value.value| < |text|) && r.value.items == []
      && r.value.typeName == "string" && r.value.limit == PageLimit(limit, MAX_PAGE_STRING_BYTES)
  {
    hide ReadU64;
    var text := StringBytes(src, pos);
    var first := Min(offset, |text|);
    var size := Min(PageLimit(limit, MAX_PAGE_STRING_BYTES), |text| - first);
    assert text[first..first + size] == src.data[pos + 8 + first..pos + 8 + first + size];
  }

  // The shown elements of the array value encoded at pos.
  predicate WholeArray(src: Source, pos: nat)
    requires pos <= |src.data|
  {
    var h := ReadArrayHeader(src, pos);
    h.Ok? && ElementType(h.value.0) && SkipElements(src, h.next, h.value.0, h.value.1).Ok?
  }

  function ArrayTexts(lib: Library, src: Source, pos: nat): seq<string>
    requires pos <= |src.data| && WholeArray(src, pos)
  {
    var h := ReadArrayHeader(src, pos);
    var vs := ReadElements(lib, src, h.next, h.value.0, h.value.1);
    if vs.Ok? then ElementTexts(lib, h.value.0, vs.value) else []
  }

  /** A whole array value is exactly one that the skipping reader accepts. */
  lemma {:induction false} WholeArrayIffSkips(src: Source, pos: nat)
    requires pos <= |src.data|
    ensures WholeArray(src, pos) <==> SkipValue(src, pos, 9).Ok?
  {
    hide ReadArrayHeader;
    var h := ReadArrayHeader(src, pos);
    if h.Ok? && FixedSize(h.value.0) > 0 {
      FixedElementsInOneMove(src, h.next, h.value.0, h.value.1);
    }
  }

  // Reading k elements after skipping m yields the k elements from m on.
  lemma {:induction false} ReadAfterSkip(lib: Library, src: Source, pos: nat, t: nat, m: nat, k: nat, n: nat)
    requires pos <= |src.data| && m + k <= n
    requires ReadElements(lib, src, pos, t, n).Ok?
    ensures var first := SkipElements(src, pos, t, m);
      && first.Ok?
      && ReadElements(lib, src, first.next, t, k).Ok?
      && ReadElements(lib, src, first.next, t, k).value == ReadElements(lib, src, pos, t, n).value[m..m + k]
    decreases n
  {
    hide ReadScalar, SkipElement;
    if n > 0 {
      ElementAgrees(lib, src, pos, t);
      var v := ReadScalar(lib, src, pos, t);
      if m > 0 {
        ReadAfterSkip(lib, src, v.next, t, m - 1, k, n - 1);
      } else if k > 0 {
        ReadAfterSkip(lib, src, v.next, t, 0, k - 1, n - 1);
      }
    }
  }

  lemma {:induction false} ArrayPageIsSlice(lib: Library, src: Source, pos: nat, offset: nat, limit: nat)
    requires pos <= |src.data| && WholeArray(src, pos)
    ensures var texts, r := ArrayTexts(lib, src, pos), ReadArrayPage(lib, src, pos, offset, limit);
      && r.Ok?
      && r.value.offset == Min(offset, |texts|) && r.value.total == |texts|
      && |r.value.items| == Min(PageLimit(limit, MAX_PAGE_ITEMS), |texts| - r.value.offset)
      && r.value.items == texts[r.value.offset..r.value.offset + |r.value.items|]
      && (r.value.hasMore <==> r.value.offset + |r.value.items| < |texts|)
  {
    hide ReadArrayHeader, ReadElements, SkipElements, ElementText;
    var h := ReadArrayHeader(src, pos);
    var (t, n) := h.value;
    ElementsAgree(lib, src, h.next, t, n);
    var first := Min(offset, n);
    ReadAfterSkip(lib, src, h.next, t, first, Min(PageLimit(limit, MAX_PAGE_ITEMS), n - first), n);
  }

  // ----- walking the pages -------------------------------------------------------------------

  // A client that asks for the next page at offset + returned length until has_more is false;
  // limits(k) is the limit of its k-th request.
  function WalkString(src: Source, pos: nat, offset: nat, limits: nat -> nat, k: nat): string
    requires pos <= |src.data| && SkipString(src, pos).Ok? && offset <= |StringBytes(src, pos)|
    decreases |StringBytes(src, pos)| - offset
  {
    StringPageIsSlice(src, pos, offset, limits(k));
    var page := ReadStringPage(src, pos, offset, limits(k)).value;
    if page.hasMore then page.value + WalkString(src, pos, offset + |page.value|, limits, k + 1) else page.value
  }

  /** Whatever limits a client sends, its pages concatenate to the whole string. */
  lemma {:induction false} StringPagesConcatenate(src: Source, pos: nat, offset: nat, limits: nat -> nat, k: nat)
    requires pos <= |src.data| && SkipString(src, pos).Ok? && offset <= |StringBytes(src, pos)|
    ensures WalkString(src, pos, offset, limits, k) == StringBytes(src, pos)[offset..]
    decreases |StringBytes(src, pos)| - offset
  {
    hide ReadStringPage, StringBytes;
    StringPageIsSlice(src, pos, offset, limits(k));
    var page := ReadStringPage(src, pos, offset, limits(k)).value;
    var text := StringBytes(src, pos);
    if page.hasMore {
      StringPagesConcatenate(src, pos, offset + |page.value|, limits, k + 1);
      assert text[offset..] == text[offset..offset + |page.value|] + text[offset + |page.value|..];
    }
  }

  function WalkArray(lib: Library, src: Source, pos: nat, offset: nat, limits: nat -> nat, k: nat): seq<string>
    requires pos <= |src.data| && WholeArray(src, pos) && offset <= |ArrayTexts(lib, src, pos)|
    decreases |ArrayTexts(lib, src, pos)| - offset
  {
    ArrayPageIsSlice(lib, src, pos, offset, limits(k));
    var page := ReadArrayPage(lib, src, pos, offset, limits(k)).value;
    if page.hasMore then page.items + WalkArray(lib, src, pos, offset + |page.items|, limits, k + 1) else page.items
  }

  /** Whatever limits a client sends, its pages concatenate to the displays of all elements. */
  lemma {:induction false} ArrayPagesConcatenate(lib: Library, src: Source, pos: nat, offset: nat, limits: nat -> nat,
        k: nat)
    requires pos <= |src.data| && WholeArray(src, pos) && offset <= |ArrayTexts(lib, src, pos)|
    ensures WalkArray(lib, src, pos, offset, limits, k) == ArrayTexts(lib, src, pos)[offset..]
    decreases |ArrayTexts(lib, src, pos)| - offset
  {
    hide ReadArrayPage, ArrayTexts, WholeArray;
    ArrayPageIsSlice(lib, src, pos, offset, limits(k));
    var page := ReadArrayPage(lib, src, pos, offset, limits(k)).value;
    var texts := ArrayTexts(lib, src, pos);
    if page.hasMore {
      ArrayPagesConcatenate(lib, src, pos, offset + |page.items|, limits, k + 1);
      assert texts[offset..] == texts[offset..offset + |page.items|] + texts[offset + |page.items|..];
    }
  }

  // ----- finding the key ------------------------------------------------------------------------

  ghost predicate HasKey(entries: seq<Entry>, from: nat, key: string) {
    exists i :: from <= i < |entries| && entries[i].key == key
  }

  lemma {:induction false} WalkKeepsPrefix(lib: Library, src: Source, pos: nat, n: nat, kept: Kept)
    requires pos <= |src.data| && InspectWalk(lib, src, pos, n, kept).Ok?
    ensures kept.entries <= InspectWalk(lib, src, pos, n, kept).value.entries
    decreases n
  {
    hide ReadKey, ReadU32, ReadValue;
    if n > 0 {
      var a := InspectEntry(lib, src, pos, kept);
      WalkKeepsPrefix(lib, src, a.next, n - 1, a.value);
    }
  }

  // Any value that reads as a whole also reads page by page.
  lemma {:induction false} PageReads(lib: Library, src: Source, pos: nat, t: nat, offset: nat, limit: nat)
    requires pos <= |src.data| && ReadValue(lib, src, pos, t).Ok?
    ensures ReadPage(lib, src, pos, t, offset, limit).Ok?
  {
    hide ReadStringPage, ReadArrayPage, ReadArray, ReadString, ReadUint;
    ValueAgrees(lib, src, pos, t);
    if t == 8 {
      StringPageIsSlice(src, pos, offset, limit);
    } else if t == 9 {
      WholeArrayIffSkips(src, pos);
      ArrayPageIsSlice(lib, src, pos, offset, limit);
    }
  }

  // Where the value of the first entry with a key begins, its type, and the bytes of all keys up to it.
  datatype Located = Located(pos: nat, t: nat, keyBytes: nat)

  function Locate(src: Source, pos: nat, n: nat, key: string): (r: Option<Located>)
    requires pos <= |src.data|
    ensures r.Some? ==> r.value.pos <= |src.data|
    decreases n
  {
    if n == 0 || ReadKey(src, pos).Err? then None
    else
      var k := ReadKey(src, pos);
      var t := ReadU32(src, k.next);
      if t.Err? then None
      else if k.value == key then Some(Located(t.next, t.value, |key|))
      else if SkipValue(src, t.next, t.value).Err? then None
      else
        match Locate(src, SkipValue(src, t.next, t.value).next, n - 1, key)
        case None => None
        case Some(l) => Some(l.(keyBytes := |k.value| + l.keyBytes))
  }

  function PageBytes(page: Page): nat { |page.value| + TotalLength(page.items) }

  // The page at a located value is returned exactly when the keys up to it and the page fit the retained budget.
  ghost predicate AnswersWith(retained: nat, page: Parse<Page>, l: Located, r: Parse<Page>) {
    && page.Ok?
    && (Fits(retained, l.keyBytes + PageBytes(page.value)) ==> r == page)
    && (!Fits(retained, l.keyBytes + PageBytes(page.value)) ==> r.Err? && r.error == BudgetExceeded)
  }

  lemma {:induction false} PageWalkFinds(lib: Library, src: Source, pos: nat, n: nat, kept: Kept, key: string,
        retained: nat, offset: nat, limit: nat)
    requires pos <= |src.data| && retained <= kept.retained
    requires InspectWalk(lib, src, pos, n, kept).Ok?
    ensures var entries, r := InspectWalk(lib, src, pos, n, kept).value.entries,
        PageWalk(lib, src, pos, n, key, retained, offset, limit);
      var l := Locate(src, pos, n, key);
      && (HasKey(entries, |kept.entries|, key) <==> l.Some?)
      && (l.Some? ==> AnswersWith(retained, ReadPage(lib, src, l.value.pos, l.value.t, offset, limit), l.value, r))
      && (l.None? ==> r.Err? && r.error == KeyNotFound)
    decreases n
  {
    hide ReadKey, ReadU32, ReadValue, SkipValue, ReadPage, TotalLength;
    if n > 0 {
      var k := ReadKey(src, pos);
      var t := ReadU32(src, k.next);
      var v := ReadValue(lib, src, t.next, t.value);
      ValueAgrees(lib, src, t.next, t.value);
      var kept' := Keep(kept, k.value, v.value);
      WalkKeepsPrefix(lib, src, v.next, n - 1, kept');
      var entries := InspectWalk(lib, src, pos, n, kept).value.entries;
      assert entries[|kept.entries|].key == k.value;
      if k.value == key {
        PageReads(lib, src, t.next, t.value, offset, limit);
      } else {
        PageWalkFinds(lib, src, v.next, n - 1, kept', key, retained + |k.value|, offset, limit);
      }
    }
  }

  function LocateInFile(data: Bytes, key: string): Option<Located> {
    var h := ReadHeader(data);
    if h.Err? then None else Locate(Reachable(data, h.next), h.next, h.value.metadataCount, key)
  }

  /** For a file that inspect accepts, ReadValuePage locates exactly the keys inspect lists, and returns the
      page of such a key exactly when it fits the retained budget together with all keys up to it. */
  lemma {:induction false} PageAgreesWithInspect(lib: Library, data: Bytes, name: string, offset: nat, limit: nat)
    requires Inspect(lib, data).Ok? && TrimSpace(name) != ""
    ensures var h := ReadHeader(data).value;
      var entries := InspectWalk(lib, Reachable(data, 24), 24, h.metadataCount, Kept([], map[], 0)).value.entries;
      var r, l := ReadValuePage(lib, data, name, offset, limit), LocateInFile(data, TrimSpace(name));
      && (HasKey(entries, 0, TrimSpace(name)) <==> l.Some?)
      && (l.Some? ==> AnswersWith(0, ReadPage(lib, Reachable(data, 24), l.value.pos, l.value.t, offset, limit), l.value,
          r))
      && (l.None? ==> r.Err? && r.error == KeyNotFound)
  {
    hide ReadHeader, Reachable, InspectWalk, PageWalk, Locate, ReadPage, Derive, SummaryFeatures, RefineFeatures,
        SortByKey, TrimSpace;
    var h := ReadHeader(data);
    PageWalkFinds(lib, Reachable(data, 24), 24, h.value.metadataCount, Kept([], map[], 0), TrimSpace(name), 0, offset,
        limit);
  }
}
