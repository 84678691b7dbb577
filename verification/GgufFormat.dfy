/** What the GGUF metadata readers compute, as functions of the bytes and a position.

    A reader sees a prefix of the file: the whole file when it reads without a budget, and at
    most 64 MiB from the start of the metadata section when it reads through the counting
    reader (`Source`).  Every function says where it stops, also when it fails. */
module GgufFormat {
  import opened Common
  import opened Text

  const MAX_METADATA_COUNT: nat := 4096
  const MAX_ARRAY_COUNT: nat := 10_000_000
  const MAX_STRING_BYTES: nat := 16 * 1024 * 1024
  const MAX_DISPLAY_BYTES: nat := 4096
  const MAX_KEY_BYTES: nat := 64 * 1024
  const MAX_ARRAY_PREVIEW: nat := 16
  const MAX_RETAINED_BYTES: nat := 2 * 1024 * 1024
  const MAX_SECTION_BYTES: nat := 64 * 1024 * 1024
  const MAX_TENSOR_DIMENSIONS: nat := 8
  const MAX_INT64: int := 0x7FFF_FFFF_FFFF_FFFF
  const MAX_UINT64: int := 0xFFFF_FFFF_FFFF_FFFF

  const ELLIPSIS: string := [0xE2 as char, 0x80 as char, 0xA6 as char]

  /** Go library functions on floats and text that stay uninterpreted. */
  datatype Library = Library(
    float32: nat -> string, float64: nat -> string, quote: string -> string,
    toLower: string -> string, equalFold: (string, string) -> bool)

  datatype Error =
    | EndOfInput | BudgetExceeded | InvalidMagic | UnsupportedVersion | UnreasonableCount
    | UnreasonableKey | UnreasonableString | UnreasonableArray | NestedArray | UnsupportedType
    | UnreasonableDimensions | IncompleteArchitecture | KeyNotFound | KeyRequired

  datatype Parse<+T> = Ok(value: T, next: nat) | Err(error: Error, next: nat) {
    predicate IsFailure() { Err? }
    function PropagateFailure<U>(): Parse<U>
      requires Err?
    {
      Err(error, next)
    }
    function Extract(): (T, nat)
      requires Ok?
    {
      (value, next)
    }
  }

  /** The bytes a reader can reach, and whether the budget is what ends them. */
  datatype Source = Source(data: Bytes, capped: bool)

  function Reachable(data: Bytes, start: nat): (src: Source)
    requires start <= |data|
    ensures start <= |src.data| <= |data| && src.data == data[..|src.data|]
  {
    var stop := start + MAX_SECTION_BYTES;
    if stop <= |data| then Source(data[..stop], true) else Source(data, false)
  }

  predicate Within<T>(src: Source, pos: nat, r: Parse<T>) { pos <= r.next <= |src.data| }

  // ----- integers and strings --------------------------------------------------------------

  function Pow256(k: nat): (p: nat)
    ensures p >= 1
  {
    if k == 0 then 1 else 256 * Pow256(k - 1)
  }

  function LittleEndian(b: Bytes): (n: nat)
    ensures n < Pow256(|b|)
  {
    if b == [] then 0 else b[0] as int + 256 * LittleEndian(b[1..])
  }

  function Take(src: Source, pos: nat, n: nat): (r: Parse<Bytes>)
    requires pos <= |src.data|
    ensures Within(src, pos, r)
  {
    if pos + n <= |src.data| then Ok(src.data[pos..pos + n], pos + n)
    else Err(if src.capped then BudgetExceeded else EndOfInput, |src.data|)
  }

  function Skip(src: Source, pos: nat, n: nat): (r: Parse<()>)
    requires pos <= |src.data|
    ensures Within(src, pos, r)
  {
    var (_, p) :- Take(src, pos, n);
    Ok((), p)
  }

  function ReadUint(src: Source, pos: nat, size: nat): (r: Parse<nat>)
    requires pos <= |src.data|
    ensures Within(src, pos, r)
    ensures r.Ok? ==> r.value < Pow256(size) && r.next == pos + size
  {
    var (b, p) :- Take(src, pos, size);
    Ok(LittleEndian(b), p)
  }

  // Two's complement: the upper half of the unsigned range stands for negative numbers.
  function Signed(n: nat, size: nat): int {
    if 2 * n < Pow256(size) then n else n - Pow256(size)
  }

  function ReadU32(src: Source, pos: nat): (r: Parse<nat>)
    requires pos <= |src.data|
    ensures Within(src, pos, r)
    ensures r.Ok? ==> r.next == pos + 4
  {
    ReadUint(src, pos, 4)
  }

  function ReadU64(src: Source, pos: nat): (r: Parse<nat>)
    requires pos <= |src.data|
    ensures Within(src, pos, r)
    ensures r.Ok? ==> r.next == pos + 8
  {
    ReadUint(src, pos, 8)
  }

  function ReadKey(src: Source, pos: nat): (r: Parse<Bytes>)
    requires pos <= |src.data|
    ensures Within(src, pos, r)
    ensures r.Ok? ==> |r.value| <= MAX_KEY_BYTES && r.next == pos + 8 + |r.value|
  {
    var (n, p) :- ReadU64(src, pos);
    if n > MAX_KEY_BYTES then Err(UnreasonableKey, p) else Take(src, p, n)
  }

  datatype Str = Str(text: string, truncated: bool)

  function Min(a: nat, b: nat): nat { if a <= b then a else b }

  function ReadString(src: Source, pos: nat): (r: Parse<Str>)
    requires pos <= |src.data|
    ensures Within(src, pos, r)
    ensures r.Ok? ==> r.next >= pos + 8
  {
    var (n, p) :- ReadU64(src, pos);
    if n > MAX_STRING_BYTES then Err(UnreasonableString, p)
    else
      var take := Min(n, MAX_DISPLAY_BYTES);
      var (b, q) :- Take(src, p, take);
      var (_, e) :- Skip(src, q, n - take);
      Ok(if n > take then Str(b + ELLIPSIS, true) else Str(b, false), e)
  }

  function SkipString(src: Source, pos: nat): (r: Parse<()>)
    requires pos <= |src.data|
    ensures Within(src, pos, r)
    ensures r.Ok? ==> r.next >= pos + 8
  {
    var (n, p) :- ReadU64(src, pos);
    if n > MAX_STRING_BYTES then Err(UnreasonableString, p) else Skip(src, p, n)
  }

  // ----- values --------------------------------------------------------------------------

  // Width of the fixed-size types; zero for strings, arrays and unknown types.
  function FixedSize(t: nat): nat {
    match t
    case 0 => 1 case 1 => 1 case 7 => 1
    case 2 => 2 case 3 => 2
    case 4 => 4 case 5 => 4 case 6 => 4
    case 10 => 8 case 11 => 8 case 12 => 8
    case _ => 0
  }

  // Empty for types that have no name.
  function TypeName(t: nat): string {
    match t
    case 0 => "uint8" case 1 => "int8" case 2 => "uint16" case 3 => "int16"
    case 4 => "uint32" case 5 => "int32" case 6 => "float32" case 7 => "bool"
    case 8 => "string" case 10 => "uint64" case 11 => "int64" case 12 => "float64"
    case _ => ""
  }

  predicate ElementType(t: nat) { FixedSize(t) > 0 || t == 8 }

  datatype Value = Value(typeName: string, display: string, truncated: bool, arrayLength: nat, scalar: bool)

  function Plain(t: nat, display: string): Value { Value(TypeName(t), display, false, 0, true) }

  // How the raw unsigned number of a fixed-size type is shown.
  function ShowFixed(lib: Library, t: nat, raw: nat): string {
    match t
    case 1 => FormatInt(Signed(raw, 1))
    case 3 => FormatInt(Signed(raw, 2))
    case 5 => FormatInt(Signed(raw, 4))
    case 11 => FormatInt(Signed(raw, 8))
    case 6 => lib.float32(raw)
    case 12 => lib.float64(raw)
    case 7 => if raw != 0 then "true" else "false"
    case _ => FormatInt(raw)
  }

  function ReadScalar(lib: Library, src: Source, pos: nat, t: nat): (r: Parse<Value>)
    requires pos <= |src.data|
    ensures Within(src, pos, r)
    ensures r.Ok? ==> r.next > pos && ElementType(t)
  {
    if FixedSize(t) > 0 then
      var (n, p) :- ReadUint(src, pos, FixedSize(t));
      Ok(Plain(t, ShowFixed(lib, t, n)), p)
    else if t == 8 then
      var (s, p) :- ReadString(src, pos);
      Ok(Value("string", s.text, s.truncated, 0, true), p)
    else Err(UnsupportedType, pos)
  }

  // skipValue
  function SkipElement(src: Source, pos: nat, t: nat): (r: Parse<()>)
    requires pos <= |src.data|
    ensures Within(src, pos, r)
    ensures r.Ok? ==> r.next > pos && ElementType(t)
  {
    if FixedSize(t) > 0 then Skip(src, pos, FixedSize(t))
    else if t == 8 then SkipString(src, pos)
    else Err(UnsupportedType, pos)
  }

  function ReadElements(lib: Library, src: Source, pos: nat, t: nat, n: nat): (r: Parse<seq<Value>>)
    requires pos <= |src.data|
    ensures Within(src, pos, r)
    ensures r.Ok? ==> |r.value| == n && r.next >= pos + n
    decreases n
  {
    if n == 0 then Ok([], pos)
    else
      var (v, p) :- ReadScalar(lib, src, pos, t);
      var (vs, q) :- ReadElements(lib, src, p, t, n - 1);
      Ok([v] + vs, q)
  }

  function SkipElements(src: Source, pos: nat, t: nat, n: nat): (r: Parse<()>)
    requires pos <= |src.data|
    ensures Within(src, pos, r)
    ensures r.Ok? ==> r.next >= pos + n
    decreases n
  {
    if n == 0 then Ok((), pos)
    else
      var (_, p) :- SkipElement(src, pos, t);
      SkipElements(src, p, t, n - 1)
  }

  // The element type and the count, checked.
  function ReadArrayHeader(src: Source, pos: nat): (r: Parse<(nat, nat)>)
    requires pos <= |src.data|
    ensures Within(src, pos, r)
    ensures r.Ok? ==> r.value.1 <= MAX_ARRAY_COUNT && r.value.0 != 9 && r.next == pos + 12
  {
    var (t, p) :- ReadU32(src, pos);
    var (n, q) :- ReadU64(src, p);
    if n > MAX_ARRAY_COUNT then Err(UnreasonableArray, q)
    else if t == 9 then Err(NestedArray, q)
    else Ok((t, n), q)
  }

  function SkipRemainder(src: Source, pos: nat, t: nat, n: nat): (r: Parse<()>)
    requires pos <= |src.data|
    ensures Within(src, pos, r)
  {
    if FixedSize(t) > 0 then Skip(src, pos, n * FixedSize(t)) else SkipElements(src, pos, t, n)
  }

  function ElementText(lib: Library, t: nat, v: Value): string {
    if t == 8 then lib.quote(v.display) else v.display
  }

  function ElementTexts(lib: Library, t: nat, vs: seq<Value>): (texts: seq<string>)
    ensures |texts| == |vs|
    ensures forall i :: 0 <= i < |vs| ==> texts[i] == ElementText(lib, t, vs[i])
  {
    if vs == [] then [] else [ElementText(lib, t, vs[0])] + ElementTexts(lib, t, vs[1..])
  }

  function AnyTruncated(vs: seq<Value>): bool { vs != [] && (vs[0].truncated || AnyTruncated(vs[1..])) }

  // The text of an array of n elements whose first |preview| are shown.
  function ShowArray(preview: seq<string>, n: nat): string
    requires |preview| <= n
  {
    "[" + Join(preview, ", ")
    + (if n > |preview| then (if preview != [] then ", " else "") + ELLIPSIS + " " + Digits(n - |preview|) + " more"
        else "")
    + "]"
  }

  function ReadArray(lib: Library, src: Source, pos: nat): (r: Parse<Value>)
    requires pos <= |src.data|
    ensures Within(src, pos, r)
  {
    var (header, p) :- ReadArrayHeader(src, pos);
    var (t, n) := header;
    if !ElementType(t) then Err(UnsupportedType, p)
    else
      var shown := Min(n, MAX_ARRAY_PREVIEW);
      var (vs, q) :- ReadElements(lib, src, p, t, shown);
      var (_, e) :- SkipRemainder(src, q, t, n - shown);
      Ok(Value("array<" + TypeName(t) + ">", ShowArray(ElementTexts(lib, t, vs), n), n > shown
          || AnyTruncated(vs), n, false), e)
  }

  function ReadValue(lib: Library, src: Source, pos: nat, t: nat): (r: Parse<Value>)
    requires pos <= |src.data|
    ensures Within(src, pos, r)
  {
    if t == 9 then ReadArray(lib, src, pos) else ReadScalar(lib, src, pos, t)
  }

  // skipSummaryValue
  function SkipValue(src: Source, pos: nat, t: nat): (r: Parse<()>)
    requires pos <= |src.data|
    ensures Within(src, pos, r)
  {
    if t != 9 then SkipElement(src, pos, t)
    else
      var (header, p) :- ReadArrayHeader(src, pos);
      if FixedSize(header.0) > 0 then Skip(src, p, header.1 * FixedSize(header.0))
      else if header.0 == 8 then SkipElements(src, p, 8, header.1)
      else Err(UnsupportedType, p)
  }

  // ----- derived facts -------------------------------------------------------------------

  function ParseInt(raw: string): Option<int> {
    var negative := raw != "" && raw[0] == '-';
    var body := if raw != "" && (raw[0] == '-' || raw[0] == '+') then raw[1..] else raw;
    var n := DigitsValue(body);
    if n < 0 then None
    else if negative then (if n <= MAX_INT64 + 1 then Some(-n) else None)
    else if n <= MAX_INT64 then Some(n) else None
  }

  function ParseUint(raw: string): Option<int> {
    var n := DigitsValue(raw);
    if 0 <= n <= MAX_UINT64 then Some(n) else None
  }

  type Scalars = map<string, string>

  function Get(values: Scalars, key: string): string { if key in values then values[key] else "" }

  function ExactInt(values: Scalars, key: string): int {
    if key == "." || key !in values then 0
    else match ParseInt(values[key])
         case Some(n) => n
         case None =>
           match ParseUint(values[key])
           case Some(u) => if u > MAX_INT64 then 0 else u
           case None => 0
  }

  datatype Derived = Derived(
    architecture: string, contextLength: int, blockCount: int, embedding: int, headCount: int, kvHeadCount: int,
    keyLength: int, valueLength: int, expertCount: int, expertUsedCount: int)

  function Derive(values: Scalars): Derived {
    var architecture := TrimSpace(Get(values, "general.architecture"));
    Derived(architecture,
            ExactInt(values, architecture + ".context_length"),
            ExactInt(values, architecture + ".block_count"),
            ExactInt(values, architecture + ".embedding_length"),
            ExactInt(values, architecture + ".attention.head_count"),
            ExactInt(values, architecture + ".attention.head_count_kv"),
            ExactInt(values, architecture + ".attention.key_length"),
            ExactInt(values, architecture + ".attention.value_length"),
            ExactInt(values, architecture + ".expert_count"),
            ExactInt(values, architecture + ".expert_used_count"))
  }

  predicate CoreReady(d: Derived) {
    d.architecture != "" && d.blockCount > 0 && d.embedding > 0 && d.headCount > 0
  }

  datatype Features = Features(architecture: string, nextNPredictLayers: int, hasMTP: bool, mtpOnly: bool,
        projector: bool)

  function SummaryFeatures(lib: Library, derived: Derived, values: Scalars): Features {
    var architecture := TrimSpace(derived.architecture);
    var standalone := lib.toLower(TrimSpace(architecture)) in ["gemma4-assistant", "gemma4_assistant"];
    var features := Features(architecture, 0, standalone, standalone, lib.equalFold(architecture, "clip"));
    if architecture == "" then features
    else
      var raw := TrimSpace(Get(values, architecture + ".nextn_predict_layers"));
      match ParseInt(raw)
      case Some(n) => if n > 0 then features.(nextNPredictLayers := n, hasMTP := true) else features
      case None =>
        match ParseUint(raw)
        case Some(u) => if 0 < u <= MAX_INT64 then features.(nextNPredictLayers := u, hasMTP := true) else features
        case None => features
  }

  function SummarySuffixes(): seq<string> {
    [".context_length", ".block_count", ".embedding_length", ".attention.head_count", ".attention.head_count_kv",
     ".attention.key_length", ".attention.value_length", ".expert_count", ".expert_used_count", ".nextn_predict_layers"]
  }

  predicate SummaryKey(key: string) {
    key == "general.architecture" || exists i :: 0 <= i < |SummarySuffixes()| && HasSuffix(key, SummarySuffixes()[i])
  }

  // ----- the three walks over the metadata section ------------------------------------------

  datatype Entry = Entry(key: string, typeName: string, value: string, truncated: bool, arrayLength: nat)

  function EntryOf(key: string, v: Value): Entry { Entry(key, v.typeName, v.display, v.truncated, v.arrayLength) }

  datatype Kept = Kept(entries: seq<Entry>, scalars: Scalars, retained: nat)

  predicate Fits(retained: nat, n: nat) { retained + n <= MAX_RETAINED_BYTES }

  function Keep(k: Kept, key: string, v: Value): Kept {
    Kept(k.entries + [EntryOf(key, v)], if v.scalar then k.scalars[key := v.display] else k.scalars,
         k.retained + |key| + |v.display|)
  }

  // inspect: keep every entry
  function InspectEntry(lib: Library, src: Source, pos: nat, kept: Kept): (r: Parse<Kept>)
    requires pos <= |src.data|
    ensures Within(src, pos, r)
    ensures r.Ok? ==> r.next >= pos + 12 && |r.value.entries| == |kept.entries| + 1
  {
    var (key, p) :- ReadKey(src, pos);
    var (t, q) :- ReadU32(src, p);
    var (v, e) :- ReadValue(lib, src, q, t);
    if !Fits(kept.retained, |key| + |v.display|) then Err(BudgetExceeded, e) else Ok(Keep(kept, key, v), e)
  }

  function InspectWalk(lib: Library, src: Source, pos: nat, n: nat, kept: Kept): (r: Parse<Kept>)
    requires pos <= |src.data|
    ensures Within(src, pos, r)
    ensures r.Ok? ==> r.next >= pos + 12 * n && |r.value.entries| == |kept.entries| + n
    decreases n
  {
    if n == 0 then Ok(kept, pos)
    else
      var (k, e) :- InspectEntry(lib, src, pos, kept);
      InspectWalk(lib, src, e, n - 1, k)
  }

  datatype Picked = Picked(values: Scalars, retained: nat)

  function Pick(p: Picked, key: string, v: Value): Picked {
    Picked(if v.scalar then p.values[key := v.display] else p.values, p.retained + |key| + |v.display|)
  }

  function Pass(p: Picked, key: string): Picked { p.(retained := p.retained + |key|) }

  // readSummary: keep the summary keys, skip the other values
  function SummaryEntry(lib: Library, src: Source, pos: nat, picked: Picked): (r: Parse<Picked>)
    requires pos <= |src.data|
    ensures Within(src, pos, r)
    ensures r.Ok? ==>
        r.next >= pos + 12 && (picked.retained <= MAX_RETAINED_BYTES ==> r.value.retained <= MAX_RETAINED_BYTES)
  {
    var (key, p) :- ReadKey(src, pos);
    if !Fits(picked.retained, |key|) then Err(BudgetExceeded, p)
    else
      var (t, q) :- ReadU32(src, p);
      if SummaryKey(key) then
        var (v, e) :- ReadValue(lib, src, q, t);
        if !Fits(picked.retained + |key|, |v.display|) then Err(BudgetExceeded, e) else Ok(Pick(picked, key, v), e)
      else
        var (_, e) :- SkipValue(src, q, t);
        Ok(Pass(picked, key), e)
  }

  function SummaryWalk(lib: Library, src: Source, pos: nat, n: nat, picked: Picked): (r: Parse<Picked>)
    requires pos <= |src.data|
    ensures Within(src, pos, r)
    ensures r.Ok? ==>
        r.next >= pos + 12 * n && (picked.retained <= MAX_RETAINED_BYTES ==> r.value.retained <= MAX_RETAINED_BYTES)
    decreases n
  {
    if n == 0 then Ok(picked, pos)
    else
      var (p, e) :- SummaryEntry(lib, src, pos, picked);
      SummaryWalk(lib, src, e, n - 1, p)
  }

  // InspectDerivedReader: keep the scalars
  function DerivedEntry(lib: Library, src: Source, pos: nat, picked: Picked): (r: Parse<Picked>)
    requires pos <= |src.data|
    ensures Within(src, pos, r)
    ensures r.Ok? ==>
        r.next >= pos + 12 && (picked.retained <= MAX_RETAINED_BYTES ==> r.value.retained <= MAX_RETAINED_BYTES)
  {
    var (key, p) :- ReadKey(src, pos);
    if !Fits(picked.retained, |key|) then Err(BudgetExceeded, p)
    else
      var (t, q) :- ReadU32(src, p);
      var (v, e) :- ReadValue(lib, src, q, t);
      if !v.scalar then Ok(Pass(picked, key), e)
      else if !Fits(picked.retained + |key|, |v.display|) then Err(BudgetExceeded, e)
      else Ok(Pick(picked, key, v), e)
  }

  // What was kept before a failure is returned with the error.
  datatype Partial = Partial(scalars: Scalars, error: Option<Error>, next: nat)

  function DerivedWalk(lib: Library, src: Source, pos: nat, n: nat, picked: Picked): (r: Partial)
    requires pos <= |src.data|
    ensures pos <= r.next <= |src.data|
    ensures r.error.None? ==> r.next >= pos + 12 * n
    decreases n
  {
    if n == 0 then Partial(picked.values, None, pos)
    else
      match DerivedEntry(lib, src, pos, picked)
      case Err(error, e) => Partial(picked.values, Some(error), e)
      case Ok(p, e) => DerivedWalk(lib, src, e, n - 1, p)
  }

  // ----- whole files ---------------------------------------------------------------------------

  datatype Header = Header(version: nat, tensorCount: nat, metadataCount: nat)

  function ReadHeader(data: Bytes): (r: Parse<Header>)
    ensures Within(Source(data, false), 0, r)
    ensures r.Ok? ==> 2 <= r.value.version <= 3 && r.value.metadataCount <= MAX_METADATA_COUNT && r.next == 24
  {
    var src := Source(data, false);
    var (magic, p) :- Take(src, 0, 4);
    if magic != "GGUF" then Err(InvalidMagic, p)
    else
      var (version, q) :- ReadU32(src, p);
      if version < 2 || version > 3 then Err(UnsupportedVersion, q)
      else
        var (tensors, u) :- ReadU64(src, q);
        var (count, w) :- ReadU64(src, u);
        if count > MAX_METADATA_COUNT then Err(UnreasonableCount, w) else Ok(Header(version, tensors, count), w)
  }

  function SkipDimensions(src: Source, pos: nat, n: nat): (r: Parse<()>)
    requires pos <= |src.data|
    ensures Within(src, pos, r)
    decreases n
  {
    if n == 0 then Ok((), pos)
    else
      var (_, p) :- ReadU64(src, pos);
      SkipDimensions(src, p, n - 1)
  }

  // The name of one tensor descriptor; the rest of it is read and dropped.
  function ReadTensor(src: Source, pos: nat): (r: Parse<string>)
    requires pos <= |src.data|
    ensures Within(src, pos, r)
    ensures r.Ok? ==> r.next >= pos + 24
  {
    var (name, p) :- ReadString(src, pos);
    var (dimensions, q) :- ReadU32(src, p);
    if dimensions > MAX_TENSOR_DIMENSIONS then Err(UnreasonableDimensions, q)
    else
      var (_, u) :- SkipDimensions(src, q, dimensions);
      var (_, w) :- ReadU32(src, u);
      var (_, e) :- ReadU64(src, w);
      Ok(name.text, e)
  }

  // tensorPrefixPresentCurrent
  function TensorPrefixPresent(src: Source, pos: nat, n: nat, prefix: string): (r: Parse<bool>)
    requires pos <= |src.data|
    ensures Within(src, pos, r)
    decreases n
  {
    if n == 0 then Ok(false, pos)
    else
      var (name, p) :- ReadTensor(src, pos);
      if HasPrefix(name, prefix) then Ok(true, p) else TensorPrefixPresent(src, p, n - 1, prefix)
  }

  // Looks into the tensor directory only when the metadata leaves the question open.
  function RefineFeatures(data: Bytes, pos: nat, tensorCount: nat, features: Features): (r: Parse<Features>)
    requires pos <= |data|
    ensures Within(Source(data, false), pos, r)
  {
    if features.hasMTP && !features.mtpOnly then
      var (trunk, p) :- TensorPrefixPresent(Source(data, false), pos, tensorCount, "blk.0.");
      Ok(features.(mtpOnly := !trunk), p)
    else Ok(features, pos)
  }

  // ----- sorting by key ------------------------------------------------------------------------

  // Go compares strings byte by byte.
  predicate Less(a: string, b: string) {
    b != "" && (a == "" || a[0] < b[0] || (a[0] == b[0] && Less(a[1..], b[1..])))
  }

  function InsertByKey(e: Entry, sorted: seq<Entry>): seq<Entry> {
    if sorted == [] || !Less(sorted[0].key, e.key) then [e] + sorted else [sorted[0]] + InsertByKey(e, sorted[1..])
  }

  // Stands for sort.Slice, which leaves the order of equal keys open.
  function SortByKey(entries: seq<Entry>): seq<Entry> {
    if entries == [] then [] else InsertByKey(entries[0], SortByKey(entries[1..]))
  }

  datatype Inspection = Inspection(header: Header, metadata: seq<Entry>, derived: Derived, features: Features)

  function Inspect(lib: Library, data: Bytes): (r: Parse<Inspection>)
    ensures r.next <= |data|
  {
    var (header, p) :- ReadHeader(data);
    var (kept, q) :- InspectWalk(lib, Reachable(data, p), p, header.metadataCount, Kept([], map[], 0));
    var derived := Derive(kept.scalars);
    var (features, e) :- RefineFeatures(data, q, header.tensorCount, SummaryFeatures(lib, derived, kept.scalars));
    Ok(Inspection(header, SortByKey(kept.entries), derived, features), e)
  }

  datatype Summary = Summary(header: Header, derived: Derived, features: Features)

  function ReadSummary(lib: Library, data: Bytes): (r: Parse<Summary>)
    ensures r.next <= |data|
  {
    var (header, p) :- ReadHeader(data);
    var (picked, q) :- SummaryWalk(lib, Reachable(data, p), p, header.metadataCount, Picked(map[], 0));
    var derived := Derive(picked.values);
    var (features, e) :- RefineFeatures(data, q, header.tensorCount, SummaryFeatures(lib, derived, picked.values));
    Ok(Summary(header, derived, features), e)
  }

  datatype DerivedResult = DerivedResult(derived: Derived, error: Option<Error>, next: nat)

  const NO_DERIVED: Derived := Derived("", 0, 0, 0, 0, 0, 0, 0, 0, 0)

  function DerivedOutcome(walk: Partial): DerivedResult {
    var derived := Derive(walk.scalars);
    DerivedResult(derived,
                  if walk.error.Some? then walk.error else if CoreReady(derived) then None
                      else Some(IncompleteArchitecture),
                  walk.next)
  }

  function InspectDerived(lib: Library, data: Bytes): (r: DerivedResult)
    ensures r.next <= |data|
  {
    match ReadHeader(data)
    case Err(e, p) => DerivedResult(NO_DERIVED, Some(e), p)
    case Ok(header, p) => DerivedOutcome(DerivedWalk(lib, Reachable(data, p), p, header.metadataCount,
        Picked(map[], 0)))
  }

  // ----- one value, page by page -----------------------------------------------------------------

  const MAX_PAGE_ITEMS: nat := 100
  const MAX_PAGE_STRING_BYTES: nat := 16 * 1024

  datatype Page = Page(typeName: string, value: string, items: seq<string>, offset: nat, limit: nat, total: nat,
        hasMore: bool)

  function PageLimit(limit: nat, max: nat): (l: nat)
    requires max > 0
    ensures 0 < l <= max
  {
    if limit == 0 || limit > max then max else limit
  }

  function ReadStringPage(src: Source, pos: nat, offset: nat, limit: nat): (r: Parse<Page>)
    requires pos <= |src.data|
    ensures Within(src, pos, r)
  {
    var (total, p) :- ReadU64(src, pos);
    if total > MAX_STRING_BYTES then Err(UnreasonableString, p)
    else
      var first, size := Min(offset, total), PageLimit(limit, MAX_PAGE_STRING_BYTES);
      var (_, q) :- Skip(src, p, first);
      var (b, e) :- Take(src, q, Min(size, total - first));
      Ok(Page("string", b, [], first, size, total, first + |b| < total), e)
  }

  function ReadArrayPage(lib: Library, src: Source, pos: nat, offset: nat, limit: nat): (r: Parse<Page>)
    requires pos <= |src.data|
    ensures Within(src, pos, r)
  {
    var (header, p) :- ReadArrayHeader(src, pos);
    var (t, total) := header;
    if !ElementType(t) then Err(UnsupportedType, p)
    else
      var first, size := Min(offset, total), PageLimit(limit, MAX_PAGE_ITEMS);
      var (_, q) :- SkipElements(src, p, t, first);
      var (vs, e) :- ReadElements(lib, src, q, t, Min(size, total - first));
      Ok(Page("array<" + TypeName(t) + ">", "", ElementTexts(lib, t, vs), first, size, total, first + |vs| < total), e)
  }

  // readValuePage
  function ReadPage(lib: Library, src: Source, pos: nat, t: nat, offset: nat, limit: nat): (r: Parse<Page>)
    requires pos <= |src.data|
    ensures Within(src, pos, r)
  {
    if t == 8 then ReadStringPage(src, pos, offset, limit)
    else if t == 9 then ReadArrayPage(lib, src, pos, offset, limit)
    else
      var (v, e) :- ReadValue(lib, src, pos, t);
      Ok(Page(v.typeName, v.display, [], 0, 1, 1, false), e)
  }

  function TotalLength(items: seq<string>): nat { if items == [] then 0 else |items[0]| + TotalLength(items[1..]) }

  // Scans to the first entry with the key, skipping the values before it.
  function PageWalk(lib: Library, src: Source, pos: nat, n: nat, key: string, retained: nat, offset: nat,
        limit: nat): (r: Parse<Page>)
    requires pos <= |src.data|
    ensures Within(src, pos, r)
    decreases n
  {
    if n == 0 then Err(KeyNotFound, pos)
    else
      var (candidate, p) :- ReadKey(src, pos);
      if !Fits(retained, |candidate|) then Err(BudgetExceeded, p)
      else
        var (t, q) :- ReadU32(src, p);
        if candidate == key then
          var (page, e) :- ReadPage(lib, src, q, t, offset, limit);
          if !Fits(retained + |candidate|, |page.value| + TotalLength(page.items)) then Err(BudgetExceeded, e)
              else Ok(page, e)
        else
          var (_, e) :- SkipValue(src, q, t);
          PageWalk(lib, src, e, n - 1, key, retained + |candidate|, offset, limit)
  }

  function ReadValuePage(lib: Library, data: Bytes, name: string, offset: nat, limit: nat): (r: Parse<Page>)
    ensures r.next <= |data|
  {
    var key := TrimSpace(name);
    if key == "" then Err(KeyRequired, 0)
    else
      var (header, p) :- ReadHeader(data);
      PageWalk(lib, Reachable(data, p), p, header.metadataCount, key, 0, offset, limit)
  }
}
