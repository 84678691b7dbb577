/** The facts that the readers derive from a file, told by its entries. */
module GgufFacts {
  import opened Common
  import opened Text
  import opened GgufFormat
  import opened GgufAgreement
  import opened GgufRoundTrip

  // ----- the header -------------------------------------------------------------------------

  /** The bytes that begin an acceptable file: the magic, version 2 or 3, a tensor count, and at most 4096 entries. */
  predicate GoodHeader(data: Bytes) {
    && |data| >= 24 && data[..4] == "GGUF"
    && (data[4] as int == 2 || data[4] as int == 3) && data[5] as int == data[6] as int == data[7] as int == 0
    && data[16] as int + 256 * data[17] as int <= 4096
    && forall k :: 18 <= k < 24 ==> data[k] as int == 0
  }

  lemma {:induction false} FourBytes(b: Bytes)
    requires |b| == 4
    ensures LittleEndian(b) == b[0] as int + 256 * (b[1] as int + 256 * (b[2] as int + 256 * b[3] as int))
  {
    assert b[1..][1..] == b[2..] && b[2..][1..] == b[3..] && b[3..][1..] == [];
    assert LittleEndian(b[3..]) == b[3] as int;
    assert LittleEndian(b[2..]) == b[2] as int + 256 * LittleEndian(b[3..]);
    assert LittleEndian(b[1..]) == b[1] as int + 256 * LittleEndian(b[2..]);
  }

  lemma {:induction false} EightBytes(b: Bytes)
    requires |b| == 8
    ensures LittleEndian(b) == LittleEndian(b[..4]) + 0x1_0000_0000 * LittleEndian(b[4..])
  {
    FourBytes(b[..4]);
    assert b[1..][1..] == b[2..] && b[2..][1..] == b[3..] && b[3..][1..] == b[4..];
    assert LittleEndian(b[3..]) == b[3] as int + 256 * LittleEndian(b[4..]);
    assert LittleEndian(b[2..]) == b[2] as int + 256 * LittleEndian(b[3..]);
    assert LittleEndian(b[1..]) == b[1] as int + 256 * LittleEndian(b[2..]);
  }

  /** Every other header is refused. */
  lemma {:induction false} HeaderIsChecked(data: Bytes)
    ensures ReadHeader(data).Ok? <==> GoodHeader(data)
  {
    if |data| >= 24 {
      var version, count := data[4..8], data[16..24];
      FourBytes(version);
      EightBytes(count);
      FourBytes(count[..4]);
      FourBytes(count[4..]);
      assert count[0] == data[16] && count[1] == data[17] && count[2] == data[18] && count[3] == data[19];
      assert count[4] == data[20] && count[5] == data[21] && count[6] == data[22] && count[7] == data[23];
      assert ReadHeader(data).Ok? <==>
          data[..4] == "GGUF" && 2 <= LittleEndian(version) <= 3 && LittleEndian(count) <= 4096 by {
        HeaderFields(data);
      }
    }
  }

  lemma {:induction false} HeaderFields(data: Bytes)
    requires |data| >= 24
    ensures ReadHeader(data).Ok? <==>
        data[..4] == "GGUF" && 2 <= LittleEndian(data[4..8]) <= 3 && LittleEndian(data[16..24]) <= 4096
  {
    hide LittleEndian;
    assert data[0..4] == data[..4];
  }

  /** Longer keys and strings, larger or nested arrays, and tensors of more dimensions are refused. */
  lemma {:induction false} LimitsAreChecked(src: Source, pos: nat)
    requires pos <= |src.data|
    ensures ReadKey(src, pos).Ok? ==> |ReadKey(src, pos).value| <= 65_536
    ensures ReadString(src, pos).Ok? ==> ReadString(src, pos).next <= pos + 8 + 16_777_216
    ensures SkipString(src, pos).Ok? ==> SkipString(src, pos).next <= pos + 8 + 16_777_216
    ensures ReadArrayHeader(src, pos).Ok? ==> ReadArrayHeader(src, pos).value.1 <= 10_000_000
    ensures ReadArrayHeader(src, pos).Ok? ==> ReadArrayHeader(src, pos).value.0 != 9
    ensures ReadTensor(src, pos).Ok? ==> ReadU32(src, ReadString(src, pos).next).value <= 8
  {
    hide ReadUint;
  }

  // ----- what is kept of the scalars --------------------------------------------------------------

  function KeptScalars(lib: Library, kvs: seq<KeyValue>): Scalars { KeepAll(lib, Kept([], map[], 0), kvs).scalars }

  lemma {:induction false} OthersAreKept(lib: Library, kept: Kept, kvs: seq<KeyValue>, key: string)
    requires forall i :: 0 <= i < |kvs| && kvs[i].key == key ==> kvs[i].item.Many?
    ensures var after := KeepAll(lib, kept, kvs).scalars;
      (key in after <==> key in kept.scalars) && (key in after ==> after[key] == kept.scalars[key])
    decreases |kvs|
  {
    if kvs != [] {
      assert kvs[0].key == key ==> kvs[0].item.Many?;
      OthersAreKept(lib, Keep(kept, kvs[0].key, ItemValue(lib, kvs[0].item)), kvs[1..], key);
    }
  }

  lemma {:induction false} ScalarIsKept(lib: Library, kept: Kept, kvs: seq<KeyValue>, i: nat)
    requires i < |kvs| && kvs[i].item.One? && DistinctKeys(kvs)
    ensures var after := KeepAll(lib, kept, kvs).scalars;
      kvs[i].key in after && after[kvs[i].key] == ShowScalar(lib, kvs[i].item.s)
    decreases |kvs|
  {
    var next := Keep(kept, kvs[0].key, ItemValue(lib, kvs[0].item));
    if i == 0 {
      OthersAreKept(lib, next, kvs[1..], kvs[0].key);
    } else {
      assert kvs[1..][i - 1] == kvs[i];
      ScalarIsKept(lib, next, kvs[1..], i - 1);
    }
  }

  ghost predicate Has(kvs: seq<KeyValue>, key: string, item: Item) {
    exists i :: 0 <= i < |kvs| && kvs[i].key == key && kvs[i].item == item
  }

  ghost predicate Absent(kvs: seq<KeyValue>, key: string) { forall i :: 0 <= i < |kvs| ==> kvs[i].key != key }

  lemma {:induction false} KeptOf(lib: Library, kvs: seq<KeyValue>, key: string, item: Item)
    requires DistinctKeys(kvs) && Has(kvs, key, item)
    ensures item.One? ==> key in KeptScalars(lib, kvs) && KeptScalars(lib, kvs)[key] == ShowScalar(lib, item.s)
    ensures item.Many? ==> key !in KeptScalars(lib, kvs)
  {
    var i :| 0 <= i < |kvs| && kvs[i].key == key && kvs[i].item == item;
    if item.One? {
      ScalarIsKept(lib, Kept([], map[], 0), kvs, i);
    } else {
      OthersAreKept(lib, Kept([], map[], 0), kvs, key);
    }
  }

  // ----- numbers -------------------------------------------------------------------------------------

  predicate IsInt64(n: int) { -0x8000_0000_0000_0000 <= n <= 0x7FFF_FFFF_FFFF_FFFF }

  // Neither the first character nor all the others are enough to read this as a number.
  predicate NotNumeric(text: string) { exists k :: 0 < k < |text| && !('0' <= text[k] <= '9') }

  /** What a number among the derived facts is, by the entry with its key: the integer, or the integer that a text
      spells, if it fits an int64; otherwise zero. */
  ghost predicate Tells(kvs: seq<KeyValue>, key: string, fact: int) {
    && (forall t, n :: Has(kvs, key, One(Int(t, n))) ==> fact == if IsInt64(n) then n else 0)
    && (forall text: Bytes, n :: Has(kvs, key, One(Word(text))) && IsInt64(n) && text == FormatInt(n) ==> fact == n)
    && (forall text: Bytes :: Has(kvs, key, One(Word(text))) && NotNumeric(text) ==> fact == 0)
    && (forall b :: Has(kvs, key, One(Bool(b))) ==> fact == 0)
    && (forall t, elements :: Has(kvs, key, Many(t, elements)) ==> fact == 0)
    && (Absent(kvs, key) ==> fact == 0)
  }

  lemma {:induction false} ParsesBack(n: int)
    ensures ParseInt(FormatInt(n)) == if IsInt64(n) then Some(n) else None
    ensures n >= 0 ==> ParseUint(FormatInt(n)) == if n <= 0xFFFF_FFFF_FFFF_FFFF then Some(n) else None
    ensures |FormatInt(n)| > 0 && TrimSpace(FormatInt(n)) == FormatInt(n)
  {
    var text := FormatInt(n);
    var digits := Digits(if n < 0 then -n else n);
    DigitsRoundTrip(if n < 0 then -n else n);
    assert digits == if n < 0 then text[1..] else text;
    assert IsDigit(digits[0]) && IsDigit(digits[|digits| - 1]);
    NothingToTrim(text);
    hide Digits, DigitsValue, TrimSpace;
  }

  lemma {:induction false} NoNumber(text: string)
    requires NotNumeric(text)
    ensures ParseInt(text).None? && ParseUint(text).None?
  {
    var k :| 0 < k < |text| && !('0' <= text[k] <= '9');
    NotDigits(text, k);
    assert text[1..][k - 1] == text[k];
    NotDigits(text[1..], k - 1);
  }

  lemma {:induction false} ShownNumber(text: Bytes)
    requires NotNumeric(text)
    ensures NotNumeric(ShownText(text))
  {
    if |text| > 4096 {
      assert ShownText(text)[4096] == 0xE2 as char;
    }
  }

  lemma {:induction false} IntTells(lib: Library, kvs: seq<KeyValue>, key: string, t: Type, n: int)
    requires DistinctKeys(kvs) && AllValid(kvs) && Has(kvs, key, One(Int(t, n))) && key != "."
    ensures ExactInt(KeptScalars(lib, kvs), key) == if IsInt64(n) then n else 0
  {
    KeptOf(lib, kvs, key, One(Int(t, n)));
    assert ValidScalar(Int(t, n));
    assert -0x8000_0000_0000_0000 <= n <= 0xFFFF_FFFF_FFFF_FFFF;
    ParsesBack(n);
    hide ParseInt, ParseUint, FormatInt;
  }

  function Ten(k: nat): nat { if k == 0 then 1 else 10 * Ten(k - 1) }

  lemma {:induction false} FewDigits(n: nat, k: nat)
    requires k > 0 && n < Ten(k)
    ensures |Digits(n)| <= k
  {
    if n >= 10 {
      FewDigits(n / 10, k - 1);
    }
  }

  lemma {:induction false} TenPlus(j: nat, k: nat)
    ensures Ten(j + k) == Ten(j) * Ten(k)
  {
    if j > 0 {
      TenPlus(j - 1, k);
    }
  }

  lemma {:induction false} ShortNumber(n: int)
    requires IsInt64(n)
    ensures |FormatInt(n)| <= 21
  {
    assert Ten(5) == 100_000;
    assert Ten(10) == 100_000 * Ten(5) by { TenPlus(5, 5); }
    assert Ten(20) == Ten(10) * Ten(10) by { TenPlus(10, 10); }
    FewDigits(if n < 0 then -n else n, 20);
  }

  lemma {:induction false} WordTells(lib: Library, kvs: seq<KeyValue>, key: string, text: Bytes)
    requires DistinctKeys(kvs) && Has(kvs, key, One(Word(text))) && key != "."
    ensures NotNumeric(text) ==> ExactInt(KeptScalars(lib, kvs), key) == 0
    ensures forall n :: IsInt64(n) && text == FormatInt(n) ==> ExactInt(KeptScalars(lib, kvs), key) == n
  {
    KeptOf(lib, kvs, key, One(Word(text)));
    if NotNumeric(text) {
      ShownNumber(text);
      NoNumber(ShownText(text));
    }
    forall n | IsInt64(n) && text == FormatInt(n)
      ensures ExactInt(KeptScalars(lib, kvs), key) == n
    {
      ParsesBack(n);
      ShortNumber(n);
    }
  }

  lemma {:induction false} OthersTell(lib: Library, kvs: seq<KeyValue>, key: string)
    requires DistinctKeys(kvs) && key != "."
    ensures forall b :: Has(kvs, key, One(Bool(b))) ==> ExactInt(KeptScalars(lib, kvs), key) == 0
    ensures forall t, elements :: Has(kvs, key, Many(t, elements)) ==> ExactInt(KeptScalars(lib, kvs), key) == 0
    ensures Absent(kvs, key) ==> ExactInt(KeptScalars(lib, kvs), key) == 0
  {
    forall b | Has(kvs, key, One(Bool(b)))
      ensures ExactInt(KeptScalars(lib, kvs), key) == 0
    {
      KeptOf(lib, kvs, key, One(Bool(b)));
      var text := if b then "true" else "false";
      assert text[1] > '9';
      NoNumber(text);
    }
    forall t, elements | Has(kvs, key, Many(t, elements))
      ensures ExactInt(KeptScalars(lib, kvs), key) == 0
    {
      KeptOf(lib, kvs, key, Many(t, elements));
    }
    if Absent(kvs, key) {
      OthersAreKept(lib, Kept([], map[], 0), kvs, key);
    }
  }

  lemma {:induction false} NumberTells(lib: Library, kvs: seq<KeyValue>, key: string)
    requires DistinctKeys(kvs) && AllValid(kvs) && key != "."
    ensures Tells(kvs, key, ExactInt(KeptScalars(lib, kvs), key))
  {
    hide ExactInt, KeptScalars, AllValid, DistinctKeys, FormatInt, NotNumeric, Absent;
    OthersTell(lib, kvs, key);
    forall t, n | Has(kvs, key, One(Int(t, n)))
      ensures ExactInt(KeptScalars(lib, kvs), key) == if IsInt64(n) then n else 0
    {
      IntTells(lib, kvs, key, t, n);
    }
    forall text: Bytes | Has(kvs, key, One(Word(text)))
      ensures NotNumeric(text) ==> ExactInt(KeptScalars(lib, kvs), key) == 0
      ensures forall n :: IsInt64(n) && text == FormatInt(n) ==> ExactInt(KeptScalars(lib, kvs), key) == n
    {
      WordTells(lib, kvs, key, text);
    }
  }

  // ----- the derived facts -----------------------------------------------------------------------------

  const ArchitectureKey: string := "general.architecture"

  // The file's architecture, if it fits the display.
  ghost predicate Declares(kvs: seq<KeyValue>, architecture: Bytes) {
    || (Has(kvs, ArchitectureKey, One(Word(architecture))) && |architecture| <= 4096)
    || (Absent(kvs, ArchitectureKey) && architecture == "")
  }

  /** Every fact comes from the entry under its own key. */
  ghost predicate FactsOf(kvs: seq<KeyValue>, architecture: string, d: Derived) {
    && d.architecture == architecture
    && Tells(kvs, architecture + ".context_length", d.contextLength)
    && Tells(kvs, architecture + ".block_count", d.blockCount)
    && Tells(kvs, architecture + ".embedding_length", d.embedding)
    && Tells(kvs, architecture + ".attention.head_count", d.headCount)
    && Tells(kvs, architecture + ".attention.head_count_kv", d.kvHeadCount)
    && Tells(kvs, architecture + ".attention.key_length", d.keyLength)
    && Tells(kvs, architecture + ".attention.value_length", d.valueLength)
    && Tells(kvs, architecture + ".expert_count", d.expertCount)
    && Tells(kvs, architecture + ".expert_used_count", d.expertUsedCount)
  }

  lemma {:induction false} ArchitectureIsKept(lib: Library, kvs: seq<KeyValue>, architecture: Bytes)
    requires DistinctKeys(kvs) && Declares(kvs, architecture)
    ensures Get(KeptScalars(lib, kvs), ArchitectureKey) == architecture
  {
    if Has(kvs, ArchitectureKey, One(Word(architecture))) {
      KeptOf(lib, kvs, ArchitectureKey, One(Word(architecture)));
    } else {
      OthersAreKept(lib, Kept([], map[], 0), kvs, ArchitectureKey);
    }
  }

  lemma {:induction false} DeriveTells(lib: Library, kvs: seq<KeyValue>, architecture: Bytes)
    requires DistinctKeys(kvs) && AllValid(kvs) && Declares(kvs, architecture)
    ensures FactsOf(kvs, TrimSpace(architecture), Derive(KeptScalars(lib, kvs)))
  {
    hide ExactInt, KeptScalars, AllValid, DistinctKeys, Tells, TrimSpace, Declares;
    ArchitectureIsKept(lib, kvs, architecture);
    var a := TrimSpace(architecture);
    NumberTells(lib, kvs, a + ".context_length");
    NumberTells(lib, kvs, a + ".block_count");
    NumberTells(lib, kvs, a + ".embedding_length");
    NumberTells(lib, kvs, a + ".attention.head_count");
    NumberTells(lib, kvs, a + ".attention.head_count_kv");
    NumberTells(lib, kvs, a + ".attention.key_length");
    NumberTells(lib, kvs, a + ".attention.value_length");
    NumberTells(lib, kvs, a + ".expert_count");
    NumberTells(lib, kvs, a + ".expert_used_count");
  }

  // ----- the features ------------------------------------------------------------------------------------

  // A standalone prediction head by its architecture.
  predicate Standalone(lib: Library, architecture: string) {
    lib.toLower(architecture) == "gemma4-assistant" || lib.toLower(architecture) == "gemma4_assistant"
  }

  /** Multi-token prediction is announced by the architecture or by a positive number of layers; such a file lacks
      a trunk if it is standalone or no tensor belongs to the first block. */
  ghost predicate FeaturesOf(lib: Library, kvs: seq<KeyValue>, ts: seq<Tensor>, architecture: string, f: Features) {
    && f.architecture == architecture
    && f.projector == lib.equalFold(architecture, "clip")
    && f.nextNPredictLayers >= 0
    && (architecture == "" ==> f.nextNPredictLayers == 0)
    && (architecture != "" ==> LayersTold(kvs, architecture + ".nextn_predict_layers", f.nextNPredictLayers))
    && (f.hasMTP <==> Standalone(lib, architecture) || f.nextNPredictLayers > 0)
    && (f.mtpOnly <==> Standalone(lib, architecture) || (f.hasMTP && !SomeTensorHas(ts, "blk.0.")))
  }

  ghost predicate LayersTold(kvs: seq<KeyValue>, key: string, layers: int) {
    && (forall t, n :: Has(kvs, key, One(Int(t, n))) ==> layers == if IsInt64(n) && n > 0 then n else 0)
    && (Absent(kvs, key) ==> layers == 0)
  }

  lemma {:induction false} FeaturesTold(lib: Library, kvs: seq<KeyValue>, architecture: Bytes)
    requires DistinctKeys(kvs) && AllValid(kvs) && Declares(kvs, architecture)
    ensures var a, f := TrimSpace(architecture),
        SummaryFeatures(lib, Derive(KeptScalars(lib, kvs)), KeptScalars(lib, kvs));
      && f.architecture == a && f.projector == lib.equalFold(a, "clip") && f.nextNPredictLayers >= 0
      && (a == "" ==> f.nextNPredictLayers == 0)
      && (a != "" ==> LayersTold(kvs, a + ".nextn_predict_layers", f.nextNPredictLayers))
      && (f.hasMTP <==> Standalone(lib, a) || f.nextNPredictLayers > 0)
      && (f.mtpOnly <==> Standalone(lib, a))
  {
    hide ExactInt, KeptScalars, AllValid, DistinctKeys, TrimSpace, Declares, ParseInt, ParseUint, FormatInt, Tells, Has;
    ArchitectureIsKept(lib, kvs, architecture);
    TrimIsIdempotent(architecture);
    var a := TrimSpace(architecture);
    var values := KeptScalars(lib, kvs);
    if a != "" {
      var key := a + ".nextn_predict_layers";
      var layers := SummaryFeatures(lib, Derive(values), values).nextNPredictLayers;
      forall t, n | Has(kvs, key, One(Int(t, n)))
        ensures layers == if IsInt64(n) && n > 0 then n else 0
      {
        LayersKept(lib, kvs, key, t, n);
        ParsesBack(n);
      }
      if Absent(kvs, key) {
        NoLayersKept(lib, kvs, key);
      }
    }
  }

  lemma {:induction false} LayersKept(lib: Library, kvs: seq<KeyValue>, key: string, t: Type, n: int)
    requires DistinctKeys(kvs) && AllValid(kvs) && Has(kvs, key, One(Int(t, n)))
    ensures key in KeptScalars(lib, kvs) && KeptScalars(lib, kvs)[key] == FormatInt(n)
    ensures -0x8000_0000_0000_0000 <= n <= 0xFFFF_FFFF_FFFF_FFFF
  {
    KeptOf(lib, kvs, key, One(Int(t, n)));
    assert ValidScalar(Int(t, n));
  }

  lemma {:induction false} NoLayersKept(lib: Library, kvs: seq<KeyValue>, key: string)
    requires Absent(kvs, key)
    ensures key !in KeptScalars(lib, kvs) && ParseInt(TrimSpace("")).None? && ParseUint(TrimSpace("")).None?
  {
    OthersAreKept(lib, Kept([], map[], 0), kvs, key);
    assert |TrimSpace("")| <= 0;
  }

  // ----- the order of entries -----------------------------------------------------------------------------

  // Byte by byte: the texts agree up to a place where one ends or has the smaller byte.
  predicate Precedes(a: string, b: string) {
    exists k :: 0 <= k <= |a| && k < |b| && a[..k] == b[..k] && (k == |a| || a[k] < b[k])
  }

  lemma {:induction false} LessPrecedes(a: string, b: string)
    requires Less(a, b)
    ensures Precedes(a, b)
  {
    if a == "" || a[0] < b[0] {
      assert a[..0] == b[..0];
    } else {
      LessPrecedes(a[1..], b[1..]);
      var k :|
        0 <= k <= |a[1..]| && k < |b[1..]| && a[1..][..k] == b[1..][..k] && (k == |a[1..]| || a[1..][k] < b[1..][k]);
      assert a[..k + 1] == [a[0]] + a[1..][..k] && b[..k + 1] == [b[0]] + b[1..][..k];
    }
  }

  ghost predicate InOrder(es: seq<Entry>) { forall i, j :: 0 <= i < j < |es| ==> Precedes(es[i].key, es[j].key) }

  lemma {:induction false} AscendingIsInOrder(es: seq<Entry>)
    requires Ascending(es)
    ensures InOrder(es)
  {
    hide Less, Precedes;
    forall i, j | 0 <= i < j < |es|
      ensures Precedes(es[i].key, es[j].key)
    {
      LessPrecedes(es[i].key, es[j].key);
    }
  }

  // ----- whole files ------------------------------------------------------------------------------------

  // The entries and tensors of an acceptable file.
  ghost predicate GoodFile(lib: Library, version: nat, ts: seq<Tensor>, kvs: seq<KeyValue>) {
    && AllValid(kvs) && DistinctKeys(kvs) && AllTensorsValid(ts)
    && 2 <= version <= 3 && |ts| <= 0xFFFF_FFFF_FFFF_FFFF && |kvs| <= 4096
    && |EncodeSection(kvs)| <= 64 * 1024 * 1024 && RetainedBytes(lib, kvs) <= 2 * 1024 * 1024
  }

  /** What the full reader answers for a file: its header, its entries in ascending order of their keys, and the
      facts and features that its entries and tensors tell. */
  lemma {:induction false} InspectTells(lib: Library, version: nat, ts: seq<Tensor>, kvs: seq<KeyValue>, more: Bytes,
      architecture: Bytes)
    requires GoodFile(lib, version, ts, kvs) && Declares(kvs, architecture)
    ensures var r := Inspect(lib, EncodeFile(version, |ts|, kvs, EncodeTensors(ts) + more));
      && r.Ok? && r.value.header == Header(version, |ts|, |kvs|)
      && multiset(r.value.metadata) == multiset(Entries(lib, kvs)) && InOrder(r.value.metadata)
      && FactsOf(kvs, TrimSpace(architecture), r.value.derived)
      && FeaturesOf(lib, kvs, ts, TrimSpace(architecture), r.value.features)
  {
    hide EncodeSection, EncodeFile, EncodeTensors, RetainedBytes, Inspect, SummaryFeatures, Derive, SortByKey, Entries;
    hide FactsOf, LayersTold, Ascending, InOrder, TrimSpace, SomeTensorHas, Declares, Standalone, AllValid;
    hide DistinctKeys;
    InspectReadsTensorTable(lib, version, ts, kvs, more);
    assert KeepAll(lib, Kept([], map[], 0), kvs).scalars == KeptScalars(lib, kvs);
    DeriveTells(lib, kvs, architecture);
    FeaturesTold(lib, kvs, architecture);
    EntriesAreUnique(lib, kvs);
    SortByKeySorts(Entries(lib, kvs));
    AscendingIsInOrder(SortByKey(Entries(lib, kvs)));
  }

  lemma {:induction false} EntriesAreUnique(lib: Library, kvs: seq<KeyValue>)
    requires DistinctKeys(kvs)
    ensures UniqueKeys(Entries(lib, kvs))
  {
    hide ItemValue;
  }

  /** The summary reader answers with the same facts and features, and the reader for derived facts with the same
      facts; that one complains exactly when it lacks the architecture or one of three dimensions. */
  lemma {:induction false} OtherReadersTell(lib: Library, version: nat, ts: seq<Tensor>, kvs: seq<KeyValue>,
      more: Bytes, architecture: Bytes)
    requires GoodFile(lib, version, ts, kvs) && Declares(kvs, architecture)
    ensures var data := EncodeFile(version, |ts|, kvs, EncodeTensors(ts) + more);
      var r, d := ReadSummary(lib, data), InspectDerived(lib, data);
      && r.Ok? && r.value.header == Header(version, |ts|, |kvs|)
      && FactsOf(kvs, TrimSpace(architecture), r.value.derived)
      && FeaturesOf(lib, kvs, ts, TrimSpace(architecture), r.value.features)
      && FactsOf(kvs, TrimSpace(architecture), d.derived)
      && (d.error.None? <==>
          && d.derived.architecture != "" && d.derived.blockCount > 0
          && d.derived.embedding > 0 && d.derived.headCount > 0)
      && (d.error.Some? ==> d.error == Some(IncompleteArchitecture))
  {
    var data := EncodeFile(version, |ts|, kvs, EncodeTensors(ts) + more);
    hide GoodFile, FactsOf, FeaturesOf, EncodeFile, Inspect, ReadSummary, InspectDerived, Declares, TrimSpace;
    InspectTells(lib, version, ts, kvs, more, architecture);
    SummaryAgreesWithInspect(lib, data);
    DerivedAgreesWithInspect(lib, data);
  }
}
