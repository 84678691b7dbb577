/** The four readers agree: on which bytes they accept, on where they stop and on the facts they derive. */
module GgufAgreement {
  import opened Common
  import opened Text
  import opened GgufFormat

  // ----- reading and skipping one value ---------------------------------------------------

  ghost predicate SameEnd<A, B>(a: Parse<A>, b: Parse<B>) { a.Ok? == b.Ok? && (a.Ok? ==> a.next == b.next) }

  lemma {:induction false} ElementAgrees(lib: Library, src: Source, pos: nat, t: nat)
    requires pos <= |src.data|
    ensures SameEnd(ReadScalar(lib, src, pos, t), SkipElement(src, pos, t))
  {
  }

  lemma {:induction false} ElementsAgree(lib: Library, src: Source, pos: nat, t: nat, n: nat)
    requires pos <= |src.data|
    ensures SameEnd(ReadElements(lib, src, pos, t, n), SkipElements(src, pos, t, n))
    decreases n
  {
    hide ReadScalar, SkipElement;
    if n > 0 {
      ElementAgrees(lib, src, pos, t);
      var r := ReadScalar(lib, src, pos, t);
      if r.Ok? {
        ElementsAgree(lib, src, r.next, t, n - 1);
      }
    }
  }

  // Skipping m elements and then n more is skipping all of them.
  lemma {:induction false} SkipElementsSplit(src: Source, pos: nat, t: nat, m: nat, n: nat)
    requires pos <= |src.data|
    ensures var first := SkipElements(src, pos, t, m);
      SameEnd(SkipElements(src, pos, t, m + n), if first.Ok? then SkipElements(src, first.next, t, n) else first)
    decreases m
  {
    if m > 0 {
      var r := SkipElement(src, pos, t);
      if r.Ok? {
        SkipElementsSplit(src, r.next, t, m - 1, n);
      }
    }
  }

  // Fixed-size elements can be skipped in one move.
  lemma {:induction false} FixedElementsInOneMove(src: Source, pos: nat, t: nat, n: nat)
    requires pos <= |src.data| && FixedSize(t) > 0
    ensures SameEnd(SkipElements(src, pos, t, n), Skip(src, pos, n * FixedSize(t)))
    decreases n
  {
    if n > 0 {
      var r := SkipElement(src, pos, t);
      assert n * FixedSize(t) == FixedSize(t) + (n - 1) * FixedSize(t);
      if r.Ok? {
        FixedElementsInOneMove(src, r.next, t, n - 1);
      }
    }
  }

  lemma {:induction false} RemainderAgrees(src: Source, pos: nat, t: nat, n: nat)
    requires pos <= |src.data|
    ensures SameEnd(SkipRemainder(src, pos, t, n), SkipElements(src, pos, t, n))
  {
    if FixedSize(t) > 0 {
      FixedElementsInOneMove(src, pos, t, n);
    }
  }

  // Preview and remainder together are all n elements.
  lemma {:induction false} ArrayBodyAgrees(lib: Library, src: Source, pos: nat, t: nat, n: nat)
    requires pos <= |src.data| && ElementType(t)
    ensures var shown := Min(n, MAX_ARRAY_PREVIEW);
      var first := ReadElements(lib, src, pos, t, shown);
      SameEnd(if first.Ok? then SkipRemainder(src, first.next, t, n - shown) else Err(first.error, first.next),
          SkipElements(src, pos, t, n))
  {
    hide ReadElements, SkipElements, SkipRemainder, ElementType;
    var shown := Min(n, MAX_ARRAY_PREVIEW);
    ElementsAgree(lib, src, pos, t, shown);
    SkipElementsSplit(src, pos, t, shown, n - shown);
    var first := ReadElements(lib, src, pos, t, shown);
    if first.Ok? {
      RemainderAgrees(src, first.next, t, n - shown);
    }
  }

  /** readValue and skipSummaryValue accept the same encodings and stop at the same byte. */
  lemma {:induction false} ValueAgrees(lib: Library, src: Source, pos: nat, t: nat)
    requires pos <= |src.data|
    ensures SameEnd(ReadValue(lib, src, pos, t), SkipValue(src, pos, t))
  {
    if t == 9 {
      var h := ReadArrayHeader(src, pos);
      if h.Ok? && ElementType(h.value.0) {
        ArrayBodyAgrees(lib, src, h.next, h.value.0, h.value.1);
        if FixedSize(h.value.0) > 0 {
          FixedElementsInOneMove(src, h.next, h.value.0, h.value.1);
        }
      }
    } else {
      ElementAgrees(lib, src, pos, t);
    }
  }

  // ----- the walks ---------------------------------------------------------------------------

  // The summary holds exactly the summary keys of the scalars and never retains more.
  ghost predicate Follows(picked: Picked, kept: Kept) {
    && picked.retained <= kept.retained
    && (forall k :: k in picked.values <==> k in kept.scalars && SummaryKey(k))
    && (forall k :: k in picked.values ==> picked.values[k] == kept.scalars[k])
  }

  lemma {:induction false} SummaryEntryFollows(lib: Library, src: Source, pos: nat, kept: Kept, picked: Picked)
    requires pos <= |src.data| && Follows(picked, kept)
    requires InspectEntry(lib, src, pos, kept).Ok?
    ensures var a, b := InspectEntry(lib, src, pos, kept), SummaryEntry(lib, src, pos, picked);
      b.Ok? && b.next == a.next && Follows(b.value, a.value)
  {
    hide ReadKey, ReadU32, ReadValue, SkipValue, SummaryKey;
    var k := ReadKey(src, pos);
    var t := ReadU32(src, k.next);
    ValueAgrees(lib, src, t.next, t.value);
  }

  lemma {:induction false} SummaryFollowsInspect(lib: Library, src: Source, pos: nat, n: nat, kept: Kept,
        picked: Picked)
    requires pos <= |src.data| && Follows(picked, kept)
    requires InspectWalk(lib, src, pos, n, kept).Ok?
    ensures var a, b := InspectWalk(lib, src, pos, n, kept), SummaryWalk(lib, src, pos, n, picked);
      b.Ok? && b.next == a.next && Follows(b.value, a.value)
    decreases n
  {
    hide InspectEntry, SummaryEntry, Follows;
    if n > 0 {
      SummaryEntryFollows(lib, src, pos, kept, picked);
      var a := InspectEntry(lib, src, pos, kept);
      SummaryFollowsInspect(lib, src, a.next, n - 1, a.value, SummaryEntry(lib, src, pos, picked).value);
    }
  }

  // Bytes of the keys and displays of the next n entries, whatever budget is left; up to the first that does not read.
  function DisplayedBytes(lib: Library, src: Source, pos: nat, n: nat): nat
    requires pos <= |src.data|
    decreases n
  {
    if n == 0 || ReadKey(src, pos).Err? then 0
    else
      var key := ReadKey(src, pos);
      var t := ReadU32(src, key.next);
      if t.Err? || ReadValue(lib, src, t.next, t.value).Err? then 0
      else
        var v := ReadValue(lib, src, t.next, t.value);
        |key.value| + |v.value.display| + DisplayedBytes(lib, src, v.next, n - 1)
  }

  lemma {:induction false} InspectEntryFollows(lib: Library, src: Source, pos: nat, kept: Kept, picked: Picked)
    requires pos <= |src.data| && SummaryEntry(lib, src, pos, picked).Ok?
    ensures var a, b := InspectEntry(lib, src, pos, kept), SummaryEntry(lib, src, pos, picked);
      var size := DisplayedBytes(lib, src, pos, 1);
      && (a.Ok? <==> Fits(kept.retained, size))
      && (a.Err? ==> a.error == BudgetExceeded)
      && (a.Ok? ==> a.next == b.next && a.value.retained == kept.retained + size)
      && forall n: nat :: n > 0 ==> DisplayedBytes(lib, src, pos, n) == size + DisplayedBytes(lib, src, b.next, n - 1)
  {
    hide ReadKey, ReadU32, ReadValue, SkipValue, SummaryKey;
    var k := ReadKey(src, pos);
    var t := ReadU32(src, k.next);
    ValueAgrees(lib, src, t.next, t.value);
    var v := ReadValue(lib, src, t.next, t.value);
    assert DisplayedBytes(lib, src, v.next, 0) == 0;
  }

  // Where the summary succeeds, the full reader does exactly when all keys and displays fit what is left of its budget.
  lemma {:induction false} InspectFollowsSummary(lib: Library, src: Source, pos: nat, n: nat, kept: Kept,
        picked: Picked)
    requires pos <= |src.data| && kept.retained <= MAX_RETAINED_BYTES
    requires SummaryWalk(lib, src, pos, n, picked).Ok?
    ensures var a := InspectWalk(lib, src, pos, n, kept);
      && (a.Ok? <==> Fits(kept.retained, DisplayedBytes(lib, src, pos, n)))
      && (a.Err? ==> a.error == BudgetExceeded)
    decreases n
  {
    hide InspectEntry, SummaryEntry, DisplayedBytes;
    if n > 0 {
      InspectEntryFollows(lib, src, pos, kept, picked);
      var a, b := InspectEntry(lib, src, pos, kept), SummaryEntry(lib, src, pos, picked);
      if a.Ok? {
        InspectFollowsSummary(lib, src, a.next, n - 1, a.value, b.value);
      }
    } else {
      NothingDisplayed(lib, src, pos);
    }
  }

  lemma {:induction false} NothingDisplayed(lib: Library, src: Source, pos: nat)
    requires pos <= |src.data|
    ensures DisplayedBytes(lib, src, pos, 0) == 0
  {
  }

  lemma {:induction false} DerivedEntryFollows(lib: Library, src: Source, pos: nat, kept: Kept, picked: Picked)
    requires pos <= |src.data| && picked.retained <= kept.retained && picked.values == kept.scalars
    requires InspectEntry(lib, src, pos, kept).Ok?
    ensures var a, b := InspectEntry(lib, src, pos, kept), DerivedEntry(lib, src, pos, picked);
      b.Ok? && b.next == a.next && b.value.retained <= a.value.retained && b.value.values == a.value.scalars
  {
    hide ReadKey, ReadU32, ReadValue;
  }

  lemma {:induction false} DerivedFollowsInspect(lib: Library, src: Source, pos: nat, n: nat, kept: Kept,
        picked: Picked)
    requires pos <= |src.data| && picked.retained <= kept.retained && picked.values == kept.scalars
    requires InspectWalk(lib, src, pos, n, kept).Ok?
    ensures var a, b := InspectWalk(lib, src, pos, n, kept), DerivedWalk(lib, src, pos, n, picked);
      b.error.None? && b.next == a.next && b.scalars == a.value.scalars
    decreases n
  {
    hide InspectEntry, DerivedEntry;
    if n > 0 {
      DerivedEntryFollows(lib, src, pos, kept, picked);
      var a := InspectEntry(lib, src, pos, kept);
      DerivedFollowsInspect(lib, src, a.next, n - 1, a.value, DerivedEntry(lib, src, pos, picked).value);
    }
  }

  // ----- derived facts read summary keys only ----------------------------------------------

  ghost predicate AgreeOnSummaryKeys(a: Scalars, b: Scalars) {
    forall k :: SummaryKey(k) ==> (k in a <==> k in b) && (k in a && k in b ==> a[k] == b[k])
  }

  lemma {:induction false} SuffixedIsSummaryKey(architecture: string, i: nat)
    requires i < |SummarySuffixes()|
    ensures SummaryKey(architecture + SummarySuffixes()[i])
  {
    var suffix := SummarySuffixes()[i];
    assert (architecture + suffix)[|architecture + suffix| - |suffix|..] == suffix;
    assert HasSuffix(architecture + suffix, SummarySuffixes()[i]);
  }

  lemma {:induction false} LookupsAgree(a: Scalars, b: Scalars, architecture: string, i: nat)
    requires AgreeOnSummaryKeys(a, b) && i < |SummarySuffixes()|
    ensures ExactInt(a, architecture + SummarySuffixes()[i]) == ExactInt(b, architecture + SummarySuffixes()[i])
    ensures Get(a, architecture + SummarySuffixes()[i]) == Get(b, architecture + SummarySuffixes()[i])
  {
    hide SummarySuffixes, SummaryKey, ParseInt, ParseUint;
    SuffixedIsSummaryKey(architecture, i);
  }

  lemma {:induction false} DerivedFieldsAgree(a: Scalars, b: Scalars)
    requires AgreeOnSummaryKeys(a, b)
    ensures Derive(a) == Derive(b)
  {
    hide ExactInt, TrimSpace, SummaryKey;
    assert Get(a, "general.architecture") == Get(b, "general.architecture") by { ArchitectureAgrees(a, b); }
    var architecture := TrimSpace(Get(a, "general.architecture"));
    LookupsAgree(a, b, architecture, 0);
    LookupsAgree(a, b, architecture, 1);
    LookupsAgree(a, b, architecture, 2);
    LookupsAgree(a, b, architecture, 3);
    LookupsAgree(a, b, architecture, 4);
    LookupsAgree(a, b, architecture, 5);
    LookupsAgree(a, b, architecture, 6);
    LookupsAgree(a, b, architecture, 7);
    LookupsAgree(a, b, architecture, 8);
  }

  lemma {:induction false} ArchitectureAgrees(a: Scalars, b: Scalars)
    requires AgreeOnSummaryKeys(a, b)
    ensures Get(a, "general.architecture") == Get(b, "general.architecture")
  {
    assert SummaryKey("general.architecture");
  }

  lemma {:induction false} DeriveReadsSummaryKeys(lib: Library, a: Scalars, b: Scalars)
    requires AgreeOnSummaryKeys(a, b)
    ensures Derive(a) == Derive(b)
    ensures SummaryFeatures(lib, Derive(a), a) == SummaryFeatures(lib, Derive(b), b)
  {
    hide Derive, TrimSpace, ParseInt, ParseUint, SummaryKey;
    DerivedFieldsAgree(a, b);
    LookupsAgree(a, b, TrimSpace(Derive(a).architecture), 9);
  }

  // ----- whole files ---------------------------------------------------------------------------

  /** If inspect succeeds then readSummary succeeds, with the same header, derived facts and
      features, and both leave the stream at the same byte. */
  lemma {:induction false} SummaryAgreesWithInspect(lib: Library, data: Bytes)
    requires Inspect(lib, data).Ok?
    ensures var a, b := Inspect(lib, data), ReadSummary(lib, data);
      b.Ok? && b.next == a.next && b.value == Summary(a.value.header, a.value.derived, a.value.features)
  {
    hide ReadHeader, Reachable, InspectWalk, SummaryWalk, Derive, SummaryFeatures, RefineFeatures, SortByKey;
    var h := ReadHeader(data);
    var src := Reachable(data, h.next);
    var a := InspectWalk(lib, src, h.next, h.value.metadataCount, Kept([], map[], 0));
    SummaryFollowsInspect(lib, src, h.next, h.value.metadataCount, Kept([], map[], 0), Picked(map[], 0));
    var b := SummaryWalk(lib, src, h.next, h.value.metadataCount, Picked(map[], 0));
    DeriveReadsSummaryKeys(lib, a.value.scalars, b.value.values);
  }

  // Bytes of all keys and displays that the header announces.
  function FileDisplays(lib: Library, data: Bytes): nat {
    var h := ReadHeader(data);
    if h.Err? then 0 else DisplayedBytes(lib, Reachable(data, h.next), h.next, h.value.metadataCount)
  }

  /** The full reader accepts exactly the files that readSummary accepts and whose keys and displays fit the
      retained budget; refusing another of them it reports that budget. */
  lemma {:induction false} InspectAgreesWithSummary(lib: Library, data: Bytes)
    ensures Inspect(lib, data).Ok? <==> ReadSummary(lib, data).Ok? && FileDisplays(lib, data) <= MAX_RETAINED_BYTES
    ensures ReadSummary(lib, data).Ok? && Inspect(lib, data).Err? ==> Inspect(lib, data).error == BudgetExceeded
  {
    hide ReadHeader, Reachable, InspectWalk, SummaryWalk, DisplayedBytes, Derive, SummaryFeatures, RefineFeatures,
        SortByKey;
    if Inspect(lib, data).Ok? {
      SummaryAgreesWithInspect(lib, data);
    }
    if ReadSummary(lib, data).Ok? {
      var h := ReadHeader(data);
      var src := Reachable(data, h.next);
      InspectFollowsSummary(lib, src, h.next, h.value.metadataCount, Kept([], map[], 0), Picked(map[], 0));
      var a := InspectWalk(lib, src, h.next, h.value.metadataCount, Kept([], map[], 0));
      if a.Ok? {
        SummaryFollowsInspect(lib, src, h.next, h.value.metadataCount, Kept([], map[], 0), Picked(map[], 0));
        var b := SummaryWalk(lib, src, h.next, h.value.metadataCount, Picked(map[], 0));
        DeriveReadsSummaryKeys(lib, a.value.scalars, b.value.values);
      }
    }
  }

  /** If inspect succeeds then InspectDerivedReader derives the same facts, and reports no
      error exactly when the core dimensions are present. */
  lemma {:induction false} DerivedAgreesWithInspect(lib: Library, data: Bytes)
    requires Inspect(lib, data).Ok?
    ensures var a, b := Inspect(lib, data), InspectDerived(lib, data);
      && b.derived == a.value.derived
      && (b.error.None? <==> CoreReady(a.value.derived))
      && (b.error.Some? ==> b.error == Some(IncompleteArchitecture))
      && b.next <= a.next
  {
    hide ReadHeader, Reachable, InspectWalk, DerivedWalk, Derive, SummaryFeatures, RefineFeatures, SortByKey;
    var h := ReadHeader(data);
    DerivedFollowsInspect(lib, Reachable(data, h.next), h.next, h.value.metadataCount, Kept([], map[], 0),
        Picked(map[], 0));
  }

  /** Whatever the file declares, every walk ends within 64 MiB of its start, keeps at most 2 MiB of keys and
      displays, and makes at most one round for every twelve bytes it reads. */
  lemma {:induction false} WalkWithinBudgets(lib: Library, data: Bytes, start: nat, n: nat, key: string, offset: nat,
        limit: nat)
    requires start <= |data|
    ensures var src := Reachable(data, start);
      var full, summary := InspectWalk(lib, src, start, n, Kept([], map[], 0)),
          SummaryWalk(lib, src, start, n, Picked(map[], 0));
      var derived, page := DerivedWalk(lib, src, start, n, Picked(map[], 0)),
          PageWalk(lib, src, start, n, key, 0, offset, limit);
      && full.next <= start + 64 * 1024 * 1024 && summary.next <= start + 64 * 1024 * 1024
      && derived.next <= start + 64 * 1024 * 1024 && page.next <= start + 64 * 1024 * 1024
      && (full.Ok? ==>
          full.value.retained == RetainedBy(full.value.entries) <= 2 * 1024 * 1024 && 12 * n <= full.next - start)
      && (summary.Ok? ==> summary.value.retained <= 2 * 1024 * 1024 && 12 * n <= summary.next - start)
      && (derived.error.None? ==> 12 * n <= derived.next - start)
      && (page.Ok? ==> |page.value.value| + TotalLength(page.value.items) <= 2 * 1024 * 1024)
  {
    WalkRetains(lib, Reachable(data, start), start, n, Kept([], map[], 0));
    PageRetains(lib, Reachable(data, start), start, n, key, 0, offset, limit);
    hide InspectWalk, SummaryWalk, DerivedWalk, PageWalk, RetainedBy;
  }

  lemma {:induction false} PageRetains(lib: Library, src: Source, pos: nat, n: nat, key: string, retained: nat,
        offset: nat, limit: nat)
    requires pos <= |src.data|
    ensures var r := PageWalk(lib, src, pos, n, key, retained, offset, limit);
      r.Ok? ==> retained + |r.value.value| + TotalLength(r.value.items) <= MAX_RETAINED_BYTES
    decreases n
  {
    hide ReadKey, ReadU32, ReadPage, SkipValue, TotalLength;
    if n > 0 {
      var k := ReadKey(src, pos);
      if k.Ok? {
        var t := ReadU32(src, k.next);
        if t.Ok? && k.value != key && SkipValue(src, t.next, t.value).Ok? {
          PageRetains(lib, src, SkipValue(src, t.next, t.value).next, n - 1, key, retained + |k.value|, offset, limit);
        }
      }
    }
  }

  function RetainedBy(es: seq<Entry>): nat {
    if es == [] then 0 else RetainedBy(es[..|es| - 1]) + |es[|es| - 1].key| + |es[|es| - 1].value|
  }

  lemma {:induction false} WalkRetains(lib: Library, src: Source, pos: nat, n: nat, kept: Kept)
    requires pos <= |src.data| && kept.retained <= MAX_RETAINED_BYTES && kept.retained == RetainedBy(kept.entries)
    ensures var r := InspectWalk(lib, src, pos, n, kept);
      r.Ok? ==> r.value.retained <= MAX_RETAINED_BYTES && r.value.retained == RetainedBy(r.value.entries)
    decreases n
  {
    hide ReadKey, ReadU32, ReadValue;
    if n > 0 {
      var a := InspectEntry(lib, src, pos, kept);
      if a.Ok? {
        assert a.value.entries[..|kept.entries|] == kept.entries;
        WalkRetains(lib, src, a.next, n - 1, a.value);
      }
    }
  }
}
