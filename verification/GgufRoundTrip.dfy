/** The reader inverts an encoder written from the GGUF file structure
    (ggml docs/gguf.md, "File Structure", versions 2 and 3, little-endian). */
module GgufRoundTrip {
  import opened Common
  import opened Text
  import opened GgufFormat
  import opened GgufAgreement

  // ----- the encoder --------------------------------------------------------------------

  function Encode(n: nat, k: nat): (b: Bytes)
    ensures |b| == k
  {
    if k == 0 then [] else [(n % 256) as char] + Encode(n / 256, k - 1)
  }

  // The value types of the format, but for arrays.
  datatype Type =
    | UInt8 | Int8 | UInt16 | Int16 | UInt32 | Int32 | Float32 | BoolType | StringType | UInt64 | Int64 | Float64

  // Their numbers in the file; 9 stands for an array.
  function Code(t: Type): nat {
    match t
    case UInt8 => 0 case Int8 => 1 case UInt16 => 2 case Int16 => 3 case UInt32 => 4 case Int32 => 5
    case Float32 => 6 case BoolType => 7 case StringType => 8
    case UInt64 => 10 case Int64 => 11 case Float64 => 12
  }

  function Width(t: Type): nat {
    match t
    case UInt8 => 1 case Int8 => 1 case BoolType => 1
    case UInt16 => 2 case Int16 => 2
    case UInt32 => 4 case Int32 => 4 case Float32 => 4
    case UInt64 => 8 case Int64 => 8 case Float64 => 8
    case StringType => 0
  }

  function Name(t: Type): string {
    match t
    case UInt8 => "uint8" case Int8 => "int8" case UInt16 => "uint16" case Int16 => "int16"
    case UInt32 => "uint32" case Int32 => "int32" case UInt64 => "uint64" case Int64 => "int64"
    case Float32 => "float32" case Float64 => "float64" case BoolType => "bool" case StringType => "string"
  }

  predicate InRange(t: Type, n: int) {
    match t
    case UInt8 => 0 <= n <= 0xFF
    case Int8 => -0x80 <= n <= 0x7F
    case UInt16 => 0 <= n <= 0xFFFF
    case Int16 => -0x8000 <= n <= 0x7FFF
    case UInt32 => 0 <= n <= 0xFFFF_FFFF
    case Int32 => -0x8000_0000 <= n <= 0x7FFF_FFFF
    case UInt64 => 0 <= n <= 0xFFFF_FFFF_FFFF_FFFF
    case Int64 => -0x8000_0000_0000_0000 <= n <= 0x7FFF_FFFF_FFFF_FFFF
    case _ => false
  }

  datatype Scalar = Int(t: Type, n: int) | Bool(b: bool) | Float(t: Type, bits: nat) | Word(text: Bytes)

  datatype Item = One(s: Scalar) | Many(t: Type, elements: seq<Scalar>)

  datatype KeyValue = KeyValue(key: Bytes, item: Item)

  function TypeOf(s: Scalar): Type {
    match s
    case Int(t, _) => t
    case Bool(_) => BoolType
    case Float(t, _) => t
    case Word(_) => StringType
  }

  // A string holds at most 16 MiB.
  predicate ValidScalar(s: Scalar) {
    match s
    case Int(t, n) => InRange(t, n)
    case Bool(_) => true
    case Float(t, bits) => (t.Float32? && bits <= 0xFFFF_FFFF) || (t.Float64? && bits <= 0xFFFF_FFFF_FFFF_FFFF)
    case Word(text) => |text| <= 16_777_216
  }

  // An array has at most ten million elements.
  predicate ValidItem(item: Item) {
    match item
    case One(s) => ValidScalar(s)
    case Many(t, elements) =>
      && |elements| <= 10_000_000
      && forall i :: 0 <= i < |elements| ==> ValidScalar(elements[i]) && TypeOf(elements[i]) == t
  }

  predicate ValidKeyValue(kv: KeyValue) { |kv.key| <= 65_536 && ValidItem(kv.item) }

  // How many numbers have the width of a signed type.
  function Span(t: Type): nat {
    match t
    case Int8 => 0x100 case Int16 => 0x1_0000 case Int32 => 0x1_0000_0000 case _ => 0x1_0000_0000_0000_0000
  }

  // The unsigned number a fixed-size scalar is stored as: two's complement.
  function Raw(s: Scalar): nat
    requires ValidScalar(s) && !s.Word?
  {
    match s
    case Int(t, n) => if n >= 0 then n else n + Span(t)
    case Bool(b) => if b then 1 else 0
    case Float(_, bits) => bits
  }

  function EncodeScalar(s: Scalar): Bytes
    requires ValidScalar(s)
  {
    if s.Word? then Encode(|s.text|, 8) + s.text else Encode(Raw(s), Width(TypeOf(s)))
  }

  function EncodeScalars(ss: seq<Scalar>): Bytes
    requires forall i :: 0 <= i < |ss| ==> ValidScalar(ss[i])
  {
    if ss == [] then [] else EncodeScalar(ss[0]) + EncodeScalars(ss[1..])
  }

  function ItemCode(item: Item): nat { if item.One? then Code(TypeOf(item.s)) else 9 }

  function EncodeItem(item: Item): Bytes
    requires ValidItem(item)
  {
    match item
    case One(s) => EncodeScalar(s)
    case Many(t, elements) => Encode(Code(t), 4) + (Encode(|elements|, 8) + EncodeScalars(elements))
  }

  function EncodeKeyValue(kv: KeyValue): Bytes
    requires ValidKeyValue(kv)
  {
    Encode(|kv.key|, 8) + (kv.key + (Encode(ItemCode(kv.item), 4) + EncodeItem(kv.item)))
  }

  ghost predicate AllValid(kvs: seq<KeyValue>) { forall i :: 0 <= i < |kvs| ==> ValidKeyValue(kvs[i]) }

  ghost function EncodeSection(kvs: seq<KeyValue>): Bytes
    requires AllValid(kvs)
  {
    if kvs == [] then [] else EncodeKeyValue(kvs[0]) + EncodeSection(kvs[1..])
  }

  ghost function EncodeFile(version: nat, tensorCount: nat, kvs: seq<KeyValue>, rest: Bytes): Bytes
    requires AllValid(kvs)
  {
    "GGUF" + (Encode(version, 4) + (Encode(tensorCount, 8) + (Encode(|kvs|, 8) + (EncodeSection(kvs) + rest))))
  }

  // ----- what the reader should make of it --------------------------------------------------

  // The UTF-8 encoding of a horizontal ellipsis.
  const Dots: string := [0xE2 as char, 0x80 as char, 0xA6 as char]

  // At most 4096 bytes of a string are shown.
  function ShownText(text: Bytes): string { if |text| <= 4096 then text else text[..4096] + Dots }

  predicate IsLong(s: Scalar) { s.Word? && |s.text| > 4096 }

  function ShowScalar(lib: Library, s: Scalar): string {
    match s
    case Int(_, n) => FormatInt(n)
    case Bool(b) => if b then "true" else "false"
    case Float(t, bits) => if t.Float32? then lib.float32(bits) else lib.float64(bits)
    case Word(text) => ShownText(text)
  }

  // Strings are quoted among the elements of an array.
  function ShowElements(lib: Library, ss: seq<Scalar>): (texts: seq<string>)
    ensures |texts| == |ss|
  {
    seq(|ss|, i requires 0 <= i < |ss| =>
      if ss[i].Word? then lib.quote(ShownText(ss[i].text)) else ShowScalar(lib, ss[i]))
  }

  // At most 16 elements of an array are shown.
  function ShowMany(lib: Library, elements: seq<Scalar>): string {
    if |elements| <= 16 then "[" + Join(ShowElements(lib, elements), ", ") + "]"
    else "[" + Join(ShowElements(lib, elements[..16]), ", ") + ", " + Dots + " " + Digits(|elements| - 16) + " more]"
  }

  function ItemValue(lib: Library, item: Item): Value {
    match item
    case One(s) => Value(Name(TypeOf(s)), ShowScalar(lib, s), IsLong(s), 0, true)
    case Many(t, elements) =>
      Value("array<" + Name(t) + ">", ShowMany(lib, elements),
            |elements| > 16 || exists i :: 0 <= i < |elements| && IsLong(elements[i]), |elements|, false)
  }

  function Entries(lib: Library, kvs: seq<KeyValue>): (es: seq<Entry>)
    ensures |es| == |kvs|
    ensures forall i :: 0 <= i < |kvs| ==>
        var v := ItemValue(lib, kvs[i].item);
        es[i] == Entry(kvs[i].key, v.typeName, v.display, v.truncated, v.arrayLength)
  {
    if kvs == [] then []
    else
      var v := ItemValue(lib, kvs[0].item);
      [Entry(kvs[0].key, v.typeName, v.display, v.truncated, v.arrayLength)] + Entries(lib, kvs[1..])
  }

  ghost predicate DistinctKeys(kvs: seq<KeyValue>) {
    forall i, j :: 0 <= i < j < |kvs| ==> kvs[i].key != kvs[j].key
  }

  // Bytes of keys and displayed values: what the retained budget is charged.
  function RetainedBytes(lib: Library, kvs: seq<KeyValue>): nat {
    if kvs == [] then 0 else |kvs[0].key| + |ItemValue(lib, kvs[0].item).display| + RetainedBytes(lib, kvs[1..])
  }

  function KeepAll(lib: Library, kept: Kept, kvs: seq<KeyValue>): Kept
    decreases |kvs|
  {
    if kvs == [] then kept else KeepAll(lib, Keep(kept, kvs[0].key, ItemValue(lib, kvs[0].item)), kvs[1..])
  }

  lemma {:induction false} KeepAllKeepsEntries(lib: Library, kept: Kept, kvs: seq<KeyValue>)
    ensures KeepAll(lib, kept, kvs).entries == kept.entries + Entries(lib, kvs)
    decreases |kvs|
  {
    hide ItemValue;
    if kvs != [] {
      KeepAllKeepsEntries(lib, Keep(kept, kvs[0].key, ItemValue(lib, kvs[0].item)), kvs[1..]);
    }
  }

  // ----- reading back what was encoded ----------------------------------------------------

  ghost predicate At(src: Source, pos: nat, b: Bytes) {
    pos + |b| <= |src.data| && src.data[pos..pos + |b|] == b
  }

  lemma {:induction false} AtSplit(src: Source, pos: nat, a: Bytes, b: Bytes)
    requires At(src, pos, a + b)
    ensures At(src, pos, a) && At(src, pos + |a|, b)
  {
    assert src.data[pos..pos + |a|] == (a + b)[..|a|];
    assert src.data[pos + |a|..pos + |a| + |b|] == (a + b)[|a|..];
  }

  lemma {:induction false} Powers()
    ensures Pow256(1) == 0x100 && Pow256(2) == 0x10000 && Pow256(4) == 0x1_0000_0000
        && Pow256(8) == 0x1_0000_0000_0000_0000
  {
    assert Pow256(3) == 256 * Pow256(2);
    assert Pow256(5) == 256 * Pow256(4);
    assert Pow256(7) == 256 * Pow256(6);
  }

  lemma {:induction false} LittleEndianInvertsEncode(n: nat, k: nat)
    requires n < Pow256(k)
    ensures LittleEndian(Encode(n, k)) == n
  {
    if k > 0 {
      LittleEndianInvertsEncode(n / 256, k - 1);
      assert Encode(n, k)[1..] == Encode(n / 256, k - 1);
    }
  }

  lemma {:induction false} TakeAt(src: Source, pos: nat, b: Bytes)
    requires At(src, pos, b)
    ensures Take(src, pos, |b|) == Ok(b, pos + |b|)
  {
  }

  lemma {:induction false} UintAt(src: Source, pos: nat, n: nat, k: nat)
    requires n < Pow256(k) && At(src, pos, Encode(n, k))
    ensures ReadUint(src, pos, k) == Ok(n, pos + k)
  {
    LittleEndianInvertsEncode(n, k);
    TakeAt(src, pos, Encode(n, k));
  }

  lemma {:induction false} WordAt(src: Source, pos: nat, text: Bytes)
    requires |text| <= MAX_STRING_BYTES && At(src, pos, Encode(|text|, 8) + text)
    ensures ReadString(src, pos) == Ok(Str(ShownText(text), |text| > 4096), pos + 8 + |text|)
  {
    Powers();
    AtSplit(src, pos, Encode(|text|, 8), text);
    UintAt(src, pos, |text|, 8);
    var take := Min(|text|, MAX_DISPLAY_BYTES);
    assert src.data[pos + 8..pos + 8 + take] == text[..take];
  }

  // The reader's tables of types are those of the format.
  lemma {:induction false} TypesAgree(t: Type)
    ensures FixedSize(Code(t)) == Width(t) && TypeName(Code(t)) == Name(t) && ElementType(Code(t)) && Code(t) != 9
    ensures if t.StringType? then Code(t) == 8 && Width(t) == 0 && Name(t) == "string" else Code(t) != 8 && Width(t) > 0
    ensures Code(t) <= 12
  {
  }

  lemma {:induction false} ShowFixedInvertsRaw(lib: Library, s: Scalar)
    requires ValidScalar(s) && !s.Word?
    ensures Raw(s) < Pow256(Width(TypeOf(s))) && Width(TypeOf(s)) > 0
    ensures ShowFixed(lib, Code(TypeOf(s)), Raw(s)) == ShowScalar(lib, s)
  {
    hide FormatInt;
    Powers();
  }

  function ScalarValue(lib: Library, s: Scalar): Value { ItemValue(lib, One(s)) }

  lemma {:induction false} ScalarAt(lib: Library, src: Source, pos: nat, s: Scalar)
    requires ValidScalar(s) && At(src, pos, EncodeScalar(s))
    ensures ReadScalar(lib, src, pos, Code(TypeOf(s))) == Ok(ScalarValue(lib, s), pos + |EncodeScalar(s)|)
  {
    hide ReadString, ReadUint, ShowFixed, Raw, FormatInt, ShownText, Code, Width, FixedSize, TypeName, Name;
    TypesAgree(TypeOf(s));
    if s.Word? {
      WordAt(src, pos, s.text);
    } else {
      ShowFixedInvertsRaw(lib, s);
      UintAt(src, pos, Raw(s), Width(TypeOf(s)));
    }
  }

  function ScalarValues(lib: Library, ss: seq<Scalar>): (vs: seq<Value>)
    ensures |vs| == |ss| && forall i :: 0 <= i < |ss| ==> vs[i] == ScalarValue(lib, ss[i])
  {
    if ss == [] then [] else [ScalarValue(lib, ss[0])] + ScalarValues(lib, ss[1..])
  }

  lemma {:induction false} ScalarsAt(lib: Library, src: Source, pos: nat, t: Type, ss: seq<Scalar>)
    requires forall i :: 0 <= i < |ss| ==> ValidScalar(ss[i]) && TypeOf(ss[i]) == t
    requires At(src, pos, EncodeScalars(ss))
    ensures ReadElements(lib, src, pos, Code(t), |ss|) == Ok(ScalarValues(lib, ss), pos + |EncodeScalars(ss)|)
    decreases |ss|
  {
    hide ReadScalar, ScalarValue, EncodeScalar, ValidScalar, TypeOf, Code;
    if ss != [] {
      AtSplit(src, pos, EncodeScalar(ss[0]), EncodeScalars(ss[1..]));
      ScalarAt(lib, src, pos, ss[0]);
      ScalarsAt(lib, src, pos + |EncodeScalar(ss[0])|, t, ss[1..]);
    }
  }

  lemma {:induction false} EncodeScalarsSplit(ss: seq<Scalar>, m: nat)
    requires m <= |ss| && forall i :: 0 <= i < |ss| ==> ValidScalar(ss[i])
    ensures EncodeScalars(ss) == EncodeScalars(ss[..m]) + EncodeScalars(ss[m..])
    decreases m
  {
    hide EncodeScalar, ValidScalar;
    if m > 0 {
      EncodeScalarsSplit(ss[1..], m - 1);
      assert ss[1..][..m - 1] == ss[..m][1..] && ss[1..][m - 1..] == ss[m..];
    }
  }

  // The elements of an array, first the shown ones and then the rest.
  lemma {:induction false} ArrayBodyAt(lib: Library, src: Source, pos: nat, t: Type, elements: seq<Scalar>)
    requires ValidItem(Many(t, elements)) && At(src, pos, EncodeScalars(elements))
    ensures var m := Min(|elements|, MAX_ARRAY_PREVIEW);
      var mid := pos + |EncodeScalars(elements[..m])|;
      && ReadElements(lib, src, pos, Code(t), m) == Ok(ScalarValues(lib, elements[..m]), mid)
      && SkipRemainder(src, mid, Code(t), |elements| - m).Ok?
      && SkipRemainder(src, mid, Code(t), |elements| - m).next == pos + |EncodeScalars(elements)|
  {
    hide ReadElements, SkipRemainder, EncodeScalars, ScalarValues, ValidScalar, TypeOf, Code;
    var m := Min(|elements|, MAX_ARRAY_PREVIEW);
    EncodeScalarsSplit(elements, m);
    AtSplit(src, pos, EncodeScalars(elements[..m]), EncodeScalars(elements[m..]));
    ScalarsAt(lib, src, pos, t, elements[..m]);
    var mid := pos + |EncodeScalars(elements[..m])|;
    ScalarsAt(lib, src, mid, t, elements[m..]);
    ElementsAgree(lib, src, mid, Code(t), |elements| - m);
    RemainderAgrees(src, mid, Code(t), |elements| - m);
  }

  lemma {:induction false} ArrayHeaderAt(src: Source, pos: nat, t: Type, elements: seq<Scalar>)
    requires ValidItem(Many(t, elements)) && At(src, pos, EncodeItem(Many(t, elements)))
    ensures ReadArrayHeader(src, pos) == Ok((Code(t), |elements|), pos + 12)
    ensures At(src, pos + 12, EncodeScalars(elements))
    ensures |EncodeItem(Many(t, elements))| == 12 + |EncodeScalars(elements)|
  {
    hide ReadUint, EncodeScalars, ValidScalar, TypeOf, Code;
    Powers();
    TypesAgree(t);
    AtSplit(src, pos, Encode(Code(t), 4), Encode(|elements|, 8) + EncodeScalars(elements));
    AtSplit(src, pos + 4, Encode(|elements|, 8), EncodeScalars(elements));
    UintAt(src, pos, Code(t), 4);
    UintAt(src, pos + 4, |elements|, 8);
  }

  lemma {:induction false} TextsAgree(lib: Library, t: Type, ss: seq<Scalar>)
    requires forall i :: 0 <= i < |ss| ==> ValidScalar(ss[i]) && TypeOf(ss[i]) == t
    ensures ElementTexts(lib, Code(t), ScalarValues(lib, ss)) == ShowElements(lib, ss)
  {
    hide Code, ShownText, FormatInt;
    TypesAgree(t);
    var texts := ElementTexts(lib, Code(t), ScalarValues(lib, ss));
    forall i | 0 <= i < |ss|
      ensures texts[i] == ShowElements(lib, ss)[i]
    {
      assert TypeOf(ss[i]) == t && ValidScalar(ss[i]);
    }
  }

  lemma {:induction false} TruncatedAgrees(lib: Library, ss: seq<Scalar>)
    ensures AnyTruncated(ScalarValues(lib, ss)) <==> exists i :: 0 <= i < |ss| && IsLong(ss[i])
  {
    hide IsLong;
    if ss != [] {
      TruncatedAgrees(lib, ss[1..]);
      assert ScalarValues(lib, ss)[1..] == ScalarValues(lib, ss[1..]);
      assert forall i :: 0 < i < |ss| ==> ss[i] == ss[1..][i - 1];
    }
  }

  // The shown part of an array, as the reader composes it.
  lemma {:induction false} ShownArray(lib: Library, t: Type, elements: seq<Scalar>)
    requires forall i :: 0 <= i < |elements| ==> ValidScalar(elements[i]) && TypeOf(elements[i]) == t
    ensures var m := Min(|elements|, MAX_ARRAY_PREVIEW);
      var vs := ScalarValues(lib, elements[..m]);
      && ShowArray(ElementTexts(lib, Code(t), vs), |elements|) == ShowMany(lib, elements)
      && (|elements| > m || AnyTruncated(vs) <==> ItemValue(lib, Many(t, elements)).truncated)
  {
    hide Join, Digits, ShowElements, Code, AnyTruncated, ScalarValues, ElementTexts, IsLong;
    var m := Min(|elements|, MAX_ARRAY_PREVIEW);
    var shown := elements[..m];
    TextsAgree(lib, t, shown);
    TruncatedAgrees(lib, shown);
    assert |elements| <= 16 ==> shown == elements;
    assert ELLIPSIS == Dots;
  }

  lemma {:induction false} ArrayAt(lib: Library, src: Source, pos: nat, t: Type, elements: seq<Scalar>)
    requires ValidItem(Many(t, elements)) && At(src, pos, EncodeItem(Many(t, elements)))
    ensures ReadArray(lib, src, pos) == Ok(ItemValue(lib, Many(t, elements)), pos + |EncodeItem(Many(t, elements))|)
  {
    hide ReadElements, ReadArrayHeader, SkipRemainder, EncodeItem, EncodeScalars, ShowArray, ElementTexts, ScalarValues;
    hide AnyTruncated, TypeName, Name, Code, ShowMany, IsLong, ValidScalar, TypeOf, ElementType;
    TypesAgree(t);
    ArrayHeaderAt(src, pos, t, elements);
    ArrayBodyAt(lib, src, pos + 12, t, elements);
    ShownArray(lib, t, elements);
  }

  lemma {:induction false} KeyValueAt(lib: Library, src: Source, pos: nat, kv: KeyValue)
    requires ValidKeyValue(kv) && At(src, pos, EncodeKeyValue(kv))
    ensures var p := pos + 8 + |kv.key|;
      && ReadKey(src, pos) == Ok(kv.key, p)
      && ReadU32(src, p) == Ok(ItemCode(kv.item), p + 4)
      && ReadValue(lib, src, p + 4, ItemCode(kv.item)) == Ok(ItemValue(lib, kv.item), pos + |EncodeKeyValue(kv)|)
  {
    hide ReadArray, ReadScalar, EncodeItem, ItemValue, ReadUint, ValidScalar;
    Powers();
    var typed := Encode(ItemCode(kv.item), 4) + EncodeItem(kv.item);
    var p := pos + 8 + |kv.key|;
    AtSplit(src, pos, Encode(|kv.key|, 8), kv.key + typed);
    AtSplit(src, pos + 8, kv.key, typed);
    AtSplit(src, p, Encode(ItemCode(kv.item), 4), EncodeItem(kv.item));
    UintAt(src, pos, |kv.key|, 8);
    TakeAt(src, pos + 8, kv.key);
    ItemAt(lib, src, p + 4, kv.item);
    UintAt(src, p, ItemCode(kv.item), 4);
  }

  lemma {:induction false} ItemAt(lib: Library, src: Source, pos: nat, item: Item)
    requires ValidItem(item) && At(src, pos, EncodeItem(item))
    ensures ReadValue(lib, src, pos, ItemCode(item)) == Ok(ItemValue(lib, item), pos + |EncodeItem(item)|)
    ensures ItemCode(item) <= 12
  {
    hide ReadArray, ReadScalar, EncodeScalar, ShowScalar;
    match item
    case One(s) => ScalarAt(lib, src, pos, s);
    case Many(t, elements) => ArrayAt(lib, src, pos, t, elements);
  }

  /** The walk over an encoded section returns its entries in order and stops right after it;
      it fails exactly when keys and displays together exceed the retained budget. */
  lemma {:induction false} WalkInvertsEncode(lib: Library, src: Source, pos: nat, kvs: seq<KeyValue>, kept: Kept)
    requires AllValid(kvs) && At(src, pos, EncodeSection(kvs)) && kept.retained <= MAX_RETAINED_BYTES
    ensures var r := InspectWalk(lib, src, pos, |kvs|, kept);
      && (Fits(kept.retained, RetainedBytes(lib, kvs)) ==> r == Ok(KeepAll(lib, kept, kvs), pos + |EncodeSection(kvs)|))
      && (!Fits(kept.retained, RetainedBytes(lib, kvs)) ==> r.Err? && r.error == BudgetExceeded)
    decreases |kvs|
  {
    hide ReadKey, ReadU32, ReadValue, EncodeKeyValue, ItemValue, ValidKeyValue, ItemCode;
    if kvs != [] {
      AtSplit(src, pos, EncodeKeyValue(kvs[0]), EncodeSection(kvs[1..]));
      KeyValueAt(lib, src, pos, kvs[0]);
      var v := ItemValue(lib, kvs[0].item);
      if Fits(kept.retained, |kvs[0].key| + |v.display|) {
        WalkInvertsEncode(lib, src, pos + |EncodeKeyValue(kvs[0])|, kvs[1..], Keep(kept, kvs[0].key, v));
      }
    }
  }

  lemma {:induction false} HeaderAt(version: nat, tensorCount: nat, kvs: seq<KeyValue>, rest: Bytes)
    requires AllValid(kvs) && 2 <= version <= 3 && tensorCount <= MAX_UINT64 && |kvs| <= MAX_METADATA_COUNT
    ensures var data := EncodeFile(version, tensorCount, kvs, rest);
      && ReadHeader(data) == Ok(Header(version, tensorCount, |kvs|), 24)
      && At(Source(data, false), 24, EncodeSection(kvs) + rest)
  {
    hide EncodeSection, ReadUint;
    Powers();
    var body := EncodeSection(kvs) + rest;
    var counted := Encode(|kvs|, 8) + body;
    var sized := Encode(tensorCount, 8) + counted;
    var data := EncodeFile(version, tensorCount, kvs, rest);
    var src := Source(data, false);
    assert At(src, 0, "GGUF" + (Encode(version, 4) + sized));
    AtSplit(src, 0, "GGUF", Encode(version, 4) + sized);
    AtSplit(src, 4, Encode(version, 4), sized);
    AtSplit(src, 8, Encode(tensorCount, 8), counted);
    AtSplit(src, 16, Encode(|kvs|, 8), body);
    TakeAt(src, 0, "GGUF");
    UintAt(src, 4, version, 4);
    UintAt(src, 8, tensorCount, 8);
    UintAt(src, 16, |kvs|, 8);
  }

  lemma {:induction false} SectionIsReachable(version: nat, tensorCount: nat, kvs: seq<KeyValue>, rest: Bytes)
    requires AllValid(kvs) && 2 <= version <= 3 && tensorCount <= MAX_UINT64 && |kvs| <= MAX_METADATA_COUNT
    requires |EncodeSection(kvs)| <= MAX_SECTION_BYTES
    ensures var data := EncodeFile(version, tensorCount, kvs, rest);
      && ReadHeader(data) == Ok(Header(version, tensorCount, |kvs|), 24)
      && At(Reachable(data, 24), 24, EncodeSection(kvs))
      && |data| == 24 + |EncodeSection(kvs)| + |rest|
  {
    hide ReadHeader, EncodeSection, Encode;
    var data, section := EncodeFile(version, tensorCount, kvs, rest), EncodeSection(kvs);
    HeaderAt(version, tensorCount, kvs, rest);
    AtSplit(Source(data, false), 24, section, rest);
    var src := Reachable(data, 24);
    assert src.data[24..24 + |section|] == data[24..24 + |section|];
  }

  /** Encoding entries within the limits and inspecting the file returns exactly those entries,
      sorted by key, and leaves the reader at the first tensor descriptor. */
  lemma {:induction false} InspectInvertsEncode(lib: Library, version: nat, tensorCount: nat, kvs: seq<KeyValue>,
        rest: Bytes)
    requires AllValid(kvs) && 2 <= version <= 3 && tensorCount <= MAX_UINT64 && |kvs| <= MAX_METADATA_COUNT
    requires |EncodeSection(kvs)| <= MAX_SECTION_BYTES && RetainedBytes(lib, kvs) <= MAX_RETAINED_BYTES
    ensures var data, kept := EncodeFile(version, tensorCount, kvs, rest), KeepAll(lib, Kept([], map[], 0), kvs);
      var features := SummaryFeatures(lib, Derive(kept.scalars), kept.scalars);
      && InspectWalk(lib, Reachable(data, 24), 24, |kvs|, Kept([], map[], 0)) == Ok(kept, |data| - |rest|)
      && (!features.hasMTP || features.mtpOnly ==>
          Inspect(lib, data) == Ok(Inspection(Header(version, tensorCount, |kvs|), SortByKey(Entries(lib, kvs)),
              Derive(kept.scalars), features),
                                   |data| - |rest|))
  {
    hide ReadHeader, Reachable, InspectWalk, SummaryFeatures, Derive, SortByKey, EncodeSection, EncodeFile,
        RetainedBytes, KeepAll, Entries;
    SectionIsReachable(version, tensorCount, kvs, rest);
    var data := EncodeFile(version, tensorCount, kvs, rest);
    WalkInvertsEncode(lib, Reachable(data, 24), 24, kvs, Kept([], map[], 0));
    KeepAllKeepsEntries(lib, Kept([], map[], 0), kvs);
    assert [] + Entries(lib, kvs) == Entries(lib, kvs);
  }

  // ----- the tensor table ---------------------------------------------------------------------

  datatype Tensor = Tensor(name: Bytes, dimensions: seq<nat>, kind: nat, offset: nat)

  predicate ValidTensor(t: Tensor) {
    && |t.name| <= MAX_STRING_BYTES && |t.dimensions| <= MAX_TENSOR_DIMENSIONS && t.kind < Pow256(4)
        && t.offset < Pow256(8)
    && forall i :: 0 <= i < |t.dimensions| ==> t.dimensions[i] < Pow256(8)
  }

  ghost predicate AllTensorsValid(ts: seq<Tensor>) { forall i :: 0 <= i < |ts| ==> ValidTensor(ts[i]) }

  function EncodeDimensions(ds: seq<nat>): Bytes {
    if ds == [] then [] else Encode(ds[0], 8) + EncodeDimensions(ds[1..])
  }

  function EncodeTensor(t: Tensor): Bytes {
    (Encode(|t.name|, 8) + t.name) + EncodeShape(t)
  }

  function EncodeTensors(ts: seq<Tensor>): Bytes {
    if ts == [] then [] else EncodeTensor(ts[0]) + EncodeTensors(ts[1..])
  }

  lemma {:induction false} DimensionsAt(src: Source, pos: nat, ds: seq<nat>)
    requires At(src, pos, EncodeDimensions(ds)) && forall i :: 0 <= i < |ds| ==> ds[i] < Pow256(8)
    ensures SkipDimensions(src, pos, |ds|).Ok? && SkipDimensions(src, pos, |ds|).next == pos + |EncodeDimensions(ds)|
    decreases |ds|
  {
    hide ReadUint, Encode, Pow256;
    if ds != [] {
      AtSplit(src, pos, Encode(ds[0], 8), EncodeDimensions(ds[1..]));
      UintAt(src, pos, ds[0], 8);
      DimensionsAt(src, pos + 8, ds[1..]);
    }
  }

  // Dimensions, type and offset, which are read and dropped.
  function EncodeShape(t: Tensor): Bytes {
    Encode(|t.dimensions|, 4) + (EncodeDimensions(t.dimensions) + (Encode(t.kind, 4) + Encode(t.offset, 8)))
  }

  lemma {:induction false} ShapeAt(src: Source, pos: nat, t: Tensor)
    requires ValidTensor(t) && At(src, pos, EncodeShape(t))
    ensures ReadU32(src, pos) == Ok(|t.dimensions|, pos + 4)
    ensures var d := SkipDimensions(src, pos + 4, |t.dimensions|);
      && d.Ok? && ReadU32(src, d.next).Ok? && ReadU64(src, d.next + 4).Ok? && d.next + 12 == pos + |EncodeShape(t)|
  {
    hide SkipDimensions, ReadUint, EncodeDimensions;
    Powers();
    var last := Encode(t.kind, 4) + Encode(t.offset, 8);
    AtSplit(src, pos, Encode(|t.dimensions|, 4), EncodeDimensions(t.dimensions) + last);
    UintAt(src, pos, |t.dimensions|, 4);
    AtSplit(src, pos + 4, EncodeDimensions(t.dimensions), last);
    DimensionsAt(src, pos + 4, t.dimensions);
    var q := pos + 4 + |EncodeDimensions(t.dimensions)|;
    AtSplit(src, q, Encode(t.kind, 4), Encode(t.offset, 8));
    UintAt(src, q, t.kind, 4);
    UintAt(src, q + 4, t.offset, 8);
  }

  // The parts of a descriptor, read one after the other.
  lemma {:induction false} TensorByParts(src: Source, pos: nat, p: nat, name: Str, n: nat, q: nat)
    requires pos <= p <= q <= |src.data| && p + 4 <= |src.data| && n <= MAX_TENSOR_DIMENSIONS
    requires ReadString(src, pos) == Ok(name, p) && ReadU32(src, p) == Ok(n, p + 4)
    requires SkipDimensions(src, p + 4, n).Ok? && SkipDimensions(src, p + 4, n).next == q
    requires ReadU32(src, q).Ok? && q + 4 <= |src.data| && ReadU64(src, q + 4).Ok?
    ensures ReadTensor(src, pos) == Ok(name.text, q + 12)
  {
    hide ReadString, SkipDimensions, ReadU32, ReadU64;
  }

  lemma {:induction false} TensorAt(src: Source, pos: nat, t: Tensor)
    requires ValidTensor(t) && At(src, pos, EncodeTensor(t))
    ensures ReadTensor(src, pos) == Ok(ShownText(t.name), pos + |EncodeTensor(t)|)
  {
    var p := pos + 8 + |t.name|;
    AtSplit(src, pos, Encode(|t.name|, 8) + t.name, EncodeShape(t));
    WordAt(src, pos, t.name);
    ShapeAt(src, p, t);
    var q := SkipDimensions(src, p + 4, |t.dimensions|).next;
    assert q + 12 == pos + |EncodeTensor(t)|;
    hide ReadTensor, ReadString, SkipDimensions, ReadU32, ReadU64, ShownText, EncodeShape, EncodeTensor, Encode, At;
    TensorByParts(src, pos, p, Str(ShownText(t.name), |t.name| > 4096), |t.dimensions|, q);
  }

  ghost predicate SomeTensorHas(ts: seq<Tensor>, prefix: string) {
    exists k :: 0 <= k < |ts| && prefix <= ts[k].name
  }

  // What is shown of a name is enough to see a short prefix of it.
  lemma {:induction false} ShownPrefix(name: Bytes, prefix: string)
    requires |prefix| <= MAX_DISPLAY_BYTES
    ensures HasPrefix(ShownText(name), prefix) <==> prefix <= name
  {
    var text := ShownText(name);
    assert text[..Min(|name|, MAX_DISPLAY_BYTES)] == name[..Min(|name|, MAX_DISPLAY_BYTES)];
    if |prefix| <= |name| {
      assert text[..|prefix|] == name[..|prefix|];
    }
  }

  /** Over an encoded tensor table the scan answers whether some tensor's name has the prefix. */
  lemma {:induction false} TensorsAt(src: Source, pos: nat, ts: seq<Tensor>, prefix: string)
    requires AllTensorsValid(ts) && At(src, pos, EncodeTensors(ts)) && |prefix| <= MAX_DISPLAY_BYTES
    ensures var r := TensorPrefixPresent(src, pos, |ts|, prefix); r.Ok? && (r.value <==> SomeTensorHas(ts, prefix))
    decreases |ts|
  {
    hide ReadTensor, EncodeTensor, ShownText, ValidTensor, HasPrefix;
    if ts != [] {
      AtSplit(src, pos, EncodeTensor(ts[0]), EncodeTensors(ts[1..]));
      TensorAt(src, pos, ts[0]);
      ShownPrefix(ts[0].name, prefix);
      TensorsAt(src, pos + |EncodeTensor(ts[0])|, ts[1..], prefix);
      if SomeTensorHas(ts[1..], prefix) {
        var k :| 0 <= k < |ts[1..]| && prefix <= ts[1..][k].name;
        assert prefix <= ts[k + 1].name;
      }
      if SomeTensorHas(ts, prefix) && !(prefix <= ts[0].name) {
        var k :| 0 <= k < |ts| && prefix <= ts[k].name;
        assert ts[1..][k - 1] == ts[k];
      }
    }
  }

  /** With an encoded tensor table behind the entries inspecting always succeeds, and a file that predicts
      several tokens counts as lacking a trunk exactly when no tensor belongs to the first block. */
  lemma {:induction false} InspectReadsTensorTable(lib: Library, version: nat, ts: seq<Tensor>, kvs: seq<KeyValue>,
        more: Bytes)
    requires AllValid(kvs) && AllTensorsValid(ts) && 2 <= version <= 3 && |ts| <= MAX_UINT64
        && |kvs| <= MAX_METADATA_COUNT
    requires |EncodeSection(kvs)| <= MAX_SECTION_BYTES && RetainedBytes(lib, kvs) <= MAX_RETAINED_BYTES
    ensures var data, kept := EncodeFile(version, |ts|, kvs, EncodeTensors(ts) + more),
        KeepAll(lib, Kept([], map[], 0), kvs);
      var features := SummaryFeatures(lib, Derive(kept.scalars), kept.scalars);
      var trunkless := if features.hasMTP && !features.mtpOnly then !SomeTensorHas(ts, "blk.0.") else features.mtpOnly;
      && Inspect(lib, data).Ok?
      && Inspect(lib, data).value ==
          Inspection(Header(version, |ts|, |kvs|), SortByKey(Entries(lib, kvs)), Derive(kept.scalars),
          features.(mtpOnly := trunkless))
  {
    hide ReadHeader, Reachable, InspectWalk, SummaryFeatures, Derive, SortByKey, EncodeSection, EncodeFile,
        EncodeTensors, RetainedBytes, KeepAll, Entries;
    hide TensorPrefixPresent, SomeTensorHas;
    var rest := EncodeTensors(ts) + more;
    InspectInvertsEncode(lib, version, |ts|, kvs, rest);
    SectionIsReachable(version, |ts|, kvs, rest);
    var data := EncodeFile(version, |ts|, kvs, rest);
    RestAt(version, |ts|, kvs, rest);
    AtSplit(Source(data, false), |data| - |rest|, EncodeTensors(ts), more);
    TensorsAt(Source(data, false), |data| - |rest|, ts, "blk.0.");
    WalkInvertsEncode(lib, Reachable(data, 24), 24, kvs, Kept([], map[], 0));
    KeepAllKeepsEntries(lib, Kept([], map[], 0), kvs);
    assert [] + Entries(lib, kvs) == Entries(lib, kvs);
  }

  lemma {:induction false} RestAt(version: nat, tensorCount: nat, kvs: seq<KeyValue>, rest: Bytes)
    requires AllValid(kvs) && 2 <= version <= 3 && tensorCount <= MAX_UINT64 && |kvs| <= MAX_METADATA_COUNT
    ensures var data := EncodeFile(version, tensorCount, kvs, rest);
      |rest| <= |data| && At(Source(data, false), |data| - |rest|, rest)
  {
    hide ReadHeader, EncodeSection, Encode;
    HeaderAt(version, tensorCount, kvs, rest);
  }

  // ----- sorting ---------------------------------------------------------------------------

  lemma {:induction false} LessIrreflexive(a: string)
    ensures !Less(a, a)
  {
    if a != "" {
      LessIrreflexive(a[1..]);
    }
  }

  lemma {:induction false} LessTransitive(a: string, b: string, c: string)
    requires Less(a, b) && Less(b, c)
    ensures Less(a, c)
  {
    if a != "" && a[0] == b[0] && b[0] == c[0] {
      LessTransitive(a[1..], b[1..], c[1..]);
    }
  }

  lemma {:induction false} LessTotal(a: string, b: string)
    ensures Less(a, b) || Less(b, a) || a == b
  {
    if a != "" && b != "" && a[0] == b[0] {
      LessTotal(a[1..], b[1..]);
      if a[1..] == b[1..] {
        assert a == [a[0]] + a[1..] && b == [b[0]] + b[1..];
      }
    }
  }

  ghost predicate UniqueKeys(es: seq<Entry>) {
    forall i, j :: 0 <= i < j < |es| ==> es[i].key != es[j].key
  }

  ghost predicate Ascending(es: seq<Entry>) {
    forall i, j :: 0 <= i < j < |es| ==> Less(es[i].key, es[j].key)
  }

  lemma {:induction false} InsertKeepsEntries(e: Entry, es: seq<Entry>)
    ensures multiset(InsertByKey(e, es)) == multiset{e} + multiset(es)
    ensures forall x :: x in InsertByKey(e, es) <==> x == e || x in es
  {
    hide Less;
    if es != [] {
      assert es == [es[0]] + es[1..];
      InsertKeepsEntries(e, es[1..]);
    }
  }

  lemma {:induction false} InsertKeepsAscending(e: Entry, es: seq<Entry>)
    requires Ascending(es) && forall i :: 0 <= i < |es| ==> es[i].key != e.key
    ensures Ascending(InsertByKey(e, es)) && multiset(InsertByKey(e, es)) == multiset{e} + multiset(es)
  {
    hide Less;
    InsertKeepsEntries(e, es);
    if es != [] && Less(es[0].key, e.key) {
      var rest := InsertByKey(e, es[1..]);
      InsertKeepsAscending(e, es[1..]);
      InsertKeepsEntries(e, es[1..]);
      forall j | 0 <= j < |rest|
        ensures Less(es[0].key, rest[j].key)
      {
        assert rest[j] in rest;
        assert rest[j] == e || rest[j] in es[1..];
      }
    } else if es != [] {
      LessTotal(es[0].key, e.key);
      forall j | 0 <= j < |es|
        ensures Less(e.key, es[j].key)
      {
        if j > 0 { LessTransitive(e.key, es[0].key, es[j].key); }
      }
    }
  }

  /** Sorting keeps the entries and puts distinct keys in strictly ascending order. */
  lemma {:induction false} SortByKeySorts(es: seq<Entry>)
    requires UniqueKeys(es)
    ensures Ascending(SortByKey(es)) && multiset(SortByKey(es)) == multiset(es)
  {
    if es != [] {
      SortByKeySorts(es[1..]);
      var sorted := SortByKey(es[1..]);
      assert es == [es[0]] + es[1..];
      forall i | 0 <= i < |sorted|
        ensures sorted[i].key != es[0].key
      {
        assert sorted[i] in multiset(sorted);
        assert sorted[i] in es[1..];
      }
      InsertKeepsAscending(es[0], sorted);
    }
  }

  lemma {:induction false} SameFirst(a: seq<Entry>, b: seq<Entry>)
    requires Ascending(a) && Ascending(b) && multiset(a) == multiset(b) && a != [] && b != []
    ensures a[0] == b[0]
  {
    hide Less;
    assert a[0] in multiset(b) && b[0] in multiset(a);
    if a[0] != b[0] {
      assert Less(b[0].key, a[0].key) && Less(a[0].key, b[0].key);
      LessTransitive(a[0].key, b[0].key, a[0].key);
      LessIrreflexive(a[0].key);
    }
  }

  lemma {:induction false} DropFirst(a: seq<Entry>)
    requires a != []
    ensures multiset(a[1..]) == multiset(a) - multiset{a[0]}
    ensures Ascending(a) ==> Ascending(a[1..])
  {
    hide Less;
    assert a == [a[0]] + a[1..];
  }

  /** There is only one ascending arrangement, so the choice sort.Slice leaves open is none. */
  lemma {:induction false} AscendingIsUnique(a: seq<Entry>, b: seq<Entry>)
    requires Ascending(a) && Ascending(b) && multiset(a) == multiset(b)
    ensures a == b
    decreases |a|
  {
    hide Ascending;
    assert |a| == |multiset(a)| == |b|;
    if a != [] {
      SameFirst(a, b);
      DropFirst(a);
      DropFirst(b);
      AscendingIsUnique(a[1..], b[1..]);
      assert a == [a[0]] + a[1..] && b == [b[0]] + b[1..];
    }
  }
}
