/** Benchmark override resolution: requested overrides are checked one at a time against what the
    benchmark binary supports and merged into a copy of the instance's configuration. */
module RuntimeResolve {
  import opened Common
  import opened Text

  // ----- data ------------------------------------------------------------------------------------

  datatype Field =
    | ContextSize | GPULayers | BatchSize | UBatchSize | Threads | CacheTypeK | CacheTypeV
    | FlashAttention | KVOffload | SplitMode | MainGPU | NCPUMoE | MMap | MLock

  datatype Kind = IntKind(minimum: int, maximum: int) | BoolKind | TextKind(fallback: seq<string>)

  datatype Spec = Spec(field: Field, key: string, option: string, kind: Kind)

  const Specs: seq<Spec> := [
    Spec(ContextSize, "context_size", "ctx-size", IntKind(1, 4194304)),
    Spec(GPULayers, "gpu_layers", "n-gpu-layers", IntKind(-1, 100000)),
    Spec(BatchSize, "batch_size", "batch-size", IntKind(1, 4194304)),
    Spec(UBatchSize, "ubatch_size", "ubatch-size", IntKind(1, 4194304)),
    Spec(Threads, "threads", "threads", IntKind(1, 65536)),
    Spec(CacheTypeK, "cache_type_k", "cache-type-k", TextKind([])),
    Spec(CacheTypeV, "cache_type_v", "cache-type-v", TextKind([])),
    Spec(FlashAttention, "flash_attention", "flash-attn", BoolKind),
    Spec(KVOffload, "kv_offload", "kv-offload", BoolKind),
    Spec(SplitMode, "split_mode", "split-mode", TextKind(["none", "layer", "row"])),
    Spec(MainGPU, "main_gpu", "main-gpu", IntKind(0, 65535)),
    Spec(NCPUMoE, "n_cpu_moe", "n-cpu-moe", IntKind(0, 100000)),
    Spec(MMap, "mmap", "mmap", BoolKind),
    Spec(MLock, "mlock", "mlock", BoolKind)]

  datatype Value = IntValue(n: int) | BoolValue(b: bool) | TextValue(t: string)

  datatype Overrides = Overrides(options: map<Field, Value>, gpuDevices: Option<seq<string>>,
        tensorSplit: Option<string>)

  const NoOverrides: Overrides := Overrides(map[], None, None)

  datatype Config = Config(
    gpuMode: string, gpuDevices: seq<string>, tensorSplit: string, options: map<string, string>,
    sources: map<string, string>)

  datatype RuntimeOption = RuntimeOption(key: string, choices: seq<string>)

  datatype Capabilities = Capabilities(available: bool, reason: string, runtimeOptions: seq<RuntimeOption>)

  datatype Error =
    | Unavailable(reason: string)
    | Unsupported(key: string)
    | OutOfRange(key: string)
    | BadValue(key: string)
    | NotAdvertised(key: string)
    | BadDevice | UnknownDevice | BadWeights | SplitNeedsDevices | ManualNeedsDevices | SplitCount

  datatype Resolution = Ok(overrides: Overrides, config: Config) | Err(error: Error)

  /** Library functions the model leaves open: case folding, and whether a text parses as a float that
      is not zero or less. */
  datatype Library = Library(equalFold: (string, string) -> bool, isWeight: string -> bool)

  // Every field's value has the field's type.
  predicate Typed(kind: Kind, v: Value) {
    match kind case IntKind(_, _) => v.IntValue? case BoolKind => v.BoolValue? case TextKind(_) => v.TextValue?
  }

  predicate WellTyped(o: Overrides) {
    forall i :: 0 <= i < |Specs| && Specs[i].field in o.options ==> Typed(Specs[i].kind, o.options[Specs[i].field])
  }

  // ----- option values ---------------------------------------------------------------------------

  function Lookup(options: map<string, string>, option: string): string {
    if option in options then options[option] else ""
  }

  predicate SameOptionValue(left: string, right: string) { TrimSpace(left) == TrimSpace(right) }

  function LowerChar(c: char): char { if 'A' <= c <= 'Z' then (c as int + 32) as char else c }

  function Lower(s: string): string { seq(|s|, i requires 0 <= i < |s| => LowerChar(s[i])) }

  predicate SameBoolValue(raw: string, want: bool) {
    var word := Lower(TrimSpace(raw));
    if word in ["", "true", "1", "yes", "on"] then want && TrimSpace(raw) != ""
    else word in ["false", "0", "no", "off"] && !want
  }

  predicate Agrees(raw: string, v: Value) {
    match v
    case IntValue(n) => SameOptionValue(raw, FormatInt(n))
    case BoolValue(b) => SameBoolValue(raw, b)
    case TextValue(t) => SameOptionValue(raw, TrimSpace(t))
  }

  function Rendered(v: Value): string {
    match v
    case IntValue(n) => FormatInt(n)
    case BoolValue(b) => if b then "true" else "false"
    case TextValue(t) => TrimSpace(t)
  }

  function Normal(v: Value): Value { if v.TextValue? then TextValue(TrimSpace(v.t)) else v }

  predicate SimpleChar(c: char) {
    'A' <= c <= 'Z' || 'a' <= c <= 'z' || '0' <= c <= '9' || c in "_.:+-"
  }

  predicate SimpleValue(s: string) { 1 <= |s| <= 64 && forall i :: 0 <= i < |s| ==> SimpleChar(s[i]) }

  predicate HasField(caps: Capabilities, key: string) {
    exists i :: 0 <= i < |caps.runtimeOptions| && caps.runtimeOptions[i].key == key
  }

  function Choices(fields: seq<RuntimeOption>, key: string): seq<string> {
    if fields == [] then [] else if fields[0].key == key then fields[0].choices else Choices(fields[1..], key)
  }

  predicate ContainsFold(lib: Library, values: seq<string>, target: string) {
    exists i :: 0 <= i < |values| && lib.equalFold(TrimSpace(values[i]), target)
  }

  function Check(lib: Library, caps: Capabilities, spec: Spec, v: Value): Option<Error>
    requires Typed(spec.kind, v)
  {
    if !HasField(caps, spec.key) then Some(Unsupported(spec.key))
    else
      match spec.kind
      case IntKind(minimum, maximum) => if v.n < minimum || v.n > maximum then Some(OutOfRange(spec.key)) else None
      case BoolKind => None
      case TextKind(fallback) =>
        var value := TrimSpace(v.t);
        var advertised := Choices(caps.runtimeOptions, spec.key);
        var choices := if advertised == [] then fallback else advertised;
        if value == "" || !SimpleValue(value) then Some(BadValue(spec.key))
        else if choices != [] && !ContainsFold(lib, choices, value) then Some(NotAdvertised(spec.key))
        else None
  }

  // The configuration and the overrides reported so far.
  datatype Merge = Merge(config: Config, overrides: Overrides)

  datatype Step = Go(merge: Merge) | Stop(error: Error)

  function ApplyOption(lib: Library, caps: Capabilities, spec: Spec, v: Value, m: Merge): Step
    requires Typed(spec.kind, v)
  {
    var error := Check(lib, caps, spec, v);
    if error.Some? then Stop(error.value)
    else if Agrees(Lookup(m.config.options, spec.option), v) then Go(m)
    else
      Go(Merge(
           m.config.(options := m.config.options[spec.option := Rendered(v)],
               sources := m.config.sources[spec.option := "benchmark"]),
           m.overrides.(options := m.overrides.options[spec.field := Normal(v)])))
  }

  // The first n options applied in order.
  function ApplyOptions(lib: Library, caps: Capabilities, requested: Overrides, n: nat, m: Merge): Step
    requires n <= |Specs| && WellTyped(requested)
  {
    if n == 0 then Go(m)
    else
      match ApplyOptions(lib, caps, requested, n - 1, m)
      case Stop(error) => Stop(error)
      case Go(next) =>
        var spec := Specs[n - 1];
        if spec.field in requested.options then ApplyOption(lib, caps, spec, requested.options[spec.field], next)
            else Go(next)
  }

  // ----- devices and tensor split --------------------------------------------------------------------

  // Trimmed, without blanks, each at its first place only.
  function NormalizedDevices(input: seq<string>): seq<string> {
    if input == [] then []
    else
      var before := NormalizedDevices(input[..|input| - 1]);
      var value := TrimSpace(Last(input));
      if value == "" || value in before then before else before + [value]
  }

  predicate BadDeviceChar(c: char) { c in "/,; " || c as int in {0, 9, 10, 13} }

  // The first complaint about a device list.
  function DeviceError(devices: seq<string>, available: seq<string>): Option<Error> {
    if devices == [] then None
    else
      var earlier := DeviceError(devices[..|devices| - 1], available);
      var device := Last(devices);
      if earlier.Some? then earlier
      else if exists i :: 0 <= i < |device| && BadDeviceChar(device[i]) then Some(BadDevice)
      else if device !in available then Some(UnknownDevice)
      else None
  }

  function TrimParts(parts: seq<string>): seq<string> {
    seq(|parts|, i requires 0 <= i < |parts| => TrimSpace(parts[i]))
  }

  function NormalizeTensorSplit(lib: Library, raw: string): Option<string> {
    var text := TrimSpace(raw);
    if text == "" then Some("")
    else
      var parts := TrimParts(Split(text, ','));
      if forall i :: 0 <= i < |parts| ==> lib.isWeight(parts[i]) then Some(Join(parts, ",")) else None
  }

  function ApplyDevices(caps: Capabilities, requested: Overrides, instance: Config, m: Merge): Step {
    if requested.gpuDevices.None? then Go(m)
    else if !HasField(caps, "gpu_devices") then Stop(Unsupported("gpu_devices"))
    else
      var devices := NormalizedDevices(requested.gpuDevices.value);
      var error := DeviceError(devices, Choices(caps.runtimeOptions, "gpu_devices"));
      if error.Some? then Stop(error.value)
      else if devices == NormalizedDevices(instance.gpuDevices) then Go(m)
      else
        Go(Merge(m.config.(gpuDevices := devices, gpuMode := if devices == [] then "auto" else "manual"),
                 m.overrides.(gpuDevices := Some(devices))))
  }

  function ApplyTensorSplit(lib: Library, caps: Capabilities, requested: Overrides, instance: Config, m: Merge): Step {
    if requested.tensorSplit.None? then Go(m)
    else if !HasField(caps, "tensor_split") then Stop(Unsupported("tensor_split"))
    else
      match NormalizeTensorSplit(lib, requested.tensorSplit.value)
      case None => Stop(BadWeights)
      case Some(value) =>
        if value == TrimSpace(instance.tensorSplit) then Go(m)
        else Go(Merge(m.config.(tensorSplit := value), m.overrides.(tensorSplit := Some(value))))
  }

  // Returning to automatic placement gives the split back to the scheduler.
  predicate ClearsSplit(requested: Overrides, config: Config) {
    config.gpuMode == "auto" && requested.gpuDevices.Some? && config.gpuDevices == [] && requested.tensorSplit.None?
  }

  function ConsistencyError(c: Config): Option<Error> {
    if c.gpuMode == "auto" && TrimSpace(c.tensorSplit) != "" then Some(SplitNeedsDevices)
    else if c.gpuMode == "manual" && c.gpuDevices == [] then Some(ManualNeedsDevices)
    else if c.tensorSplit != "" && c.gpuDevices != [] && |Split(c.tensorSplit, ',')| != |c.gpuDevices|
        then Some(SplitCount)
    else None
  }

  function Conclude(requested: Overrides, m: Merge): Resolution {
    var config := if ClearsSplit(requested, m.config) then m.config.(tensorSplit := "") else m.config;
    var error := ConsistencyError(config);
    if error.Some? then Err(error.value) else Ok(m.overrides, config)
  }

  function Resolve(lib: Library, instance: Config, requested: Overrides, caps: Capabilities): Resolution
    requires WellTyped(requested)
  {
    if !caps.available then Err(Unavailable(caps.reason))
    else
      match ApplyOptions(lib, caps, requested, |Specs|, Merge(instance, NoOverrides))
      case Stop(error) => Err(error)
      case Go(options) =>
        match ApplyDevices(caps, requested, instance, options)
        case Stop(error) => Err(error)
        case Go(devices) =>
          match ApplyTensorSplit(lib, caps, requested, instance, devices)
          case Stop(error) => Err(error)
          case Go(all) => Conclude(requested, all)
  }

  // ----- option values, again ------------------------------------------------------------------------

  // The options and fields of the list are all different.
  lemma {:induction false} SpecsAreDistinct()
    ensures forall i, j :: 0 <= i < j < |Specs| ==>
        Specs[i].option != Specs[j].option && Specs[i].field != Specs[j].field
  {
    forall i, j | 0 <= i < j < |Specs|
      ensures Specs[i].option != Specs[j].option
    {
      var a, b := Specs[i].option, Specs[j].option;
      assert |a| != |b| || a[0] != b[0] || a[|a| - 1] != b[|b| - 1];
    }
  }

  lemma {:induction false} SpecsDiffer(i: nat, j: nat)
    requires i < |Specs| && j < |Specs| && i != j
    ensures Specs[i].option != Specs[j].option && Specs[i].field != Specs[j].field
  {
    SpecsAreDistinct();
    hide Specs;
  }

  lemma {:induction false} RenderedAgrees(v: Value)
    ensures Agrees(Rendered(v), v)
  {
    hide TrimSpace, FormatInt;
    if v.BoolValue? {
      NothingToTrim(Rendered(v));
      assert v.b ==> Lower("true") == "true";
      assert !v.b ==> Lower("false") == "false";
    } else if v.TextValue? {
      TrimIsIdempotent(v.t);
    }
  }

  lemma {:induction false} NormalIsSettled(lib: Library, caps: Capabilities, spec: Spec, v: Value, raw: string)
    requires Typed(spec.kind, v)
    ensures Typed(spec.kind, Normal(v)) && Normal(Normal(v)) == Normal(v) && Rendered(Normal(v)) == Rendered(v)
    ensures Agrees(raw, Normal(v)) <==> Agrees(raw, v)
    ensures Check(lib, caps, spec, Normal(v)) == Check(lib, caps, spec, v)
  {
    hide TrimSpace, FormatInt, SimpleValue, ContainsFold, Choices, HasField, SameBoolValue;
    if v.TextValue? {
      TrimIsIdempotent(v.t);
    }
  }

  // ----- the options, one after the other ---------------------------------------------------------------

  predicate Requested(o: Overrides, j: nat)
    requires j < |Specs|
  {
    Specs[j].field in o.options
  }

  // The request changes this option of the instance.
  predicate Changes(instance: Config, requested: Overrides, j: nat)
    requires j < |Specs|
  {
    Requested(requested, j) && !Agrees(Lookup(instance.options, Specs[j].option), requested.options[Specs[j].field])
  }

  /** What applying the first n options has done: the changed ones are reported and set, no other
      option and nothing else is touched. */
  ghost predicate OptionsApplied(instance: Config, requested: Overrides, n: nat, m: Merge)
    requires n <= |Specs|
  {
    && m.config == instance.(options := m.config.options, sources := m.config.sources)
    && m.overrides == NoOverrides.(options := m.overrides.options)
    && (forall j :: 0 <= j < |Specs| ==> (Requested(m.overrides, j) <==> j < n && Changes(instance, requested, j)))
    && (forall j :: 0 <= j < n && Requested(m.overrides, j) ==>
          && m.overrides.options[Specs[j].field] == Normal(requested.options[Specs[j].field])
          && Specs[j].option in m.config.options
              && m.config.options[Specs[j].option] == Rendered(requested.options[Specs[j].field])
          && Specs[j].option in m.config.sources && m.config.sources[Specs[j].option] == "benchmark")
    && forall k :: Untouched(m.overrides, k) ==>
        SameEntry(instance.options, m.config.options, k) && SameEntry(instance.sources, m.config.sources, k)
  }

  // No reported override is about this option.
  ghost predicate Untouched(o: Overrides, option: string) {
    forall j :: 0 <= j < |Specs| && Requested(o, j) ==> Specs[j].option != option
  }

  predicate SameEntry(a: map<string, string>, b: map<string, string>, k: string) {
    (k in a <==> k in b) && (k in a ==> a[k] == b[k])
  }

  lemma {:induction false} OptionsAreApplied(lib: Library, caps: Capabilities, instance: Config, requested: Overrides,
        n: nat, m: Merge)
    requires n <= |Specs| && WellTyped(requested)
    requires ApplyOptions(lib, caps, requested, n, Merge(instance, NoOverrides)) == Go(m)
    ensures OptionsApplied(instance, requested, n, m)
    ensures forall j :: 0 <= j < n && Requested(requested, j) ==>
        Check(lib, caps, Specs[j], requested.options[Specs[j].field]).None?
  {
    hide Specs, Agrees, Check, Rendered, Normal;
    if n > 0 {
      var before := ApplyOptions(lib, caps, requested, n - 1, Merge(instance, NoOverrides)).merge;
      OptionsAreApplied(lib, caps, instance, requested, n - 1, before);
      OptionApplied(lib, caps, instance, requested, n - 1, before, m);
    }
  }

  lemma {:induction false} OptionApplied(lib: Library, caps: Capabilities, instance: Config, requested: Overrides,
        n: nat, before: Merge, m: Merge)
    requires n < |Specs| && WellTyped(requested) && OptionsApplied(instance, requested, n, before)
    requires if Requested(requested, n)
        then ApplyOption(lib, caps, Specs[n], requested.options[Specs[n].field], before) == Go(m) else m == before
    ensures OptionsApplied(instance, requested, n + 1, m)
    ensures Requested(requested, n) ==> Check(lib, caps, Specs[n], requested.options[Specs[n].field]).None?
  {
    hide Specs, Agrees, Check, Rendered, Normal;
    forall j | 0 <= j < |Specs| && j != n
      ensures Specs[j].option != Specs[n].option && Specs[j].field != Specs[n].field
    {
      SpecsDiffer(j, n);
    }
    assert Untouched(before.overrides, Specs[n].option);
    assert SameEntry(instance.options, before.config.options, Specs[n].option);
    assert Lookup(before.config.options, Specs[n].option) == Lookup(instance.options, Specs[n].option);
    forall j | 0 <= j < |Specs|
      ensures Requested(m.overrides, j) <==>
          Requested(before.overrides, j) || (j == n && Changes(instance, requested, n))
    {
    }
    forall k | Untouched(m.overrides, k)
      ensures SameEntry(instance.options, m.config.options, k) && SameEntry(instance.sources, m.config.sources, k)
    {
      assert forall j :: 0 <= j < |Specs| && Requested(before.overrides, j) ==> Requested(m.overrides, j);
      assert Untouched(before.overrides, k);
      assert Changes(instance, requested, n) ==> Requested(m.overrides, n) && k != Specs[n].option;
    }
  }

  // After the merge every requested option has the requested value.
  lemma {:induction false} RequestedAgrees(instance: Config, requested: Overrides, m: Merge, j: nat)
    requires OptionsApplied(instance, requested, |Specs|, m) && j < |Specs| && Requested(requested, j)
    ensures Agrees(Lookup(m.config.options, Specs[j].option), requested.options[Specs[j].field])
  {
    hide Specs, Agrees, Rendered, Normal;
    var v := requested.options[Specs[j].field];
    if Changes(instance, requested, j) {
      RenderedAgrees(v);
      assert Requested(m.overrides, j);
    } else {
      forall i | 0 <= i < |Specs| && Requested(m.overrides, i)
        ensures Specs[i].option != Specs[j].option
      {
        SpecsDiffer(i, j);
      }
      assert Untouched(m.overrides, Specs[j].option);
      assert SameEntry(instance.options, m.config.options, Specs[j].option);
    }
  }

  lemma {:induction false} SettledOptions(lib: Library, caps: Capabilities, requested: Overrides, n: nat, m: Merge)
    requires n <= |Specs| && WellTyped(requested)
    requires forall j :: 0 <= j < n && Requested(requested, j) ==>
        && Check(lib, caps, Specs[j], requested.options[Specs[j].field]).None?
        && Agrees(Lookup(m.config.options, Specs[j].option), requested.options[Specs[j].field])
    ensures ApplyOptions(lib, caps, requested, n, m) == Go(m)
  {
    hide Specs, Agrees, Check;
    if n > 0 {
      SettledOptions(lib, caps, requested, n - 1, m);
      assert Requested(requested, n - 1) || !Requested(requested, n - 1);
    }
  }

  // Asking only for the reported options leads to the same place.
  lemma {:induction false} ReplayedOptions(
        lib: Library, caps: Capabilities, instance: Config, requested: Overrides, o: Overrides, n: nat, m: Merge,
        all: Merge)
    requires n <= |Specs| && WellTyped(requested) && WellTyped(o)
    requires ApplyOptions(lib, caps, requested, n, Merge(instance, NoOverrides)) == Go(m)
    requires OptionsApplied(instance, requested, |Specs|, all) && o.options == all.overrides.options
    ensures ApplyOptions(lib, caps, o, n, Merge(instance, NoOverrides)) == Go(m)
  {
    hide Specs, Agrees, Check, Rendered, Normal, Typed;
    if n > 0 {
      var before := ApplyOptions(lib, caps, requested, n - 1, Merge(instance, NoOverrides)).merge;
      ReplayedOptions(lib, caps, instance, requested, o, n - 1, before, all);
      OptionsAreApplied(lib, caps, instance, requested, n - 1, before);
      OptionsAreApplied(lib, caps, instance, requested, n, m);
      var spec := Specs[n - 1];
      assert Requested(o, n - 1) <==> Requested(all.overrides, n - 1);
      assert Untouched(before.overrides, spec.option) by {
        forall j | 0 <= j < |Specs| && Requested(before.overrides, j)
          ensures Specs[j].option != spec.option
        {
          SpecsDiffer(j, n - 1);
        }
      }
      assert SameEntry(instance.options, before.config.options, spec.option);
      if Requested(requested, n - 1) {
        NormalIsSettled(lib, caps, spec, requested.options[spec.field], Lookup(instance.options, spec.option));
      }
      hide OptionsApplied, Untouched, ApplyOptions;
    }
  }

  lemma {:induction false} OverridesAreTyped(instance: Config, requested: Overrides, m: Merge)
    requires OptionsApplied(instance, requested, |Specs|, m) && WellTyped(requested)
    ensures WellTyped(m.overrides)
  {
    hide Specs;
    forall i | 0 <= i < |Specs| && Specs[i].field in m.overrides.options
      ensures Typed(Specs[i].kind, m.overrides.options[Specs[i].field])
    {
      assert Requested(m.overrides, i) && Requested(requested, i);
    }
  }

  // ----- devices and splits, again -----------------------------------------------------------------------

  ghost predicate AreNormal(devices: seq<string>) {
    && (forall i :: 0 <= i < |devices| ==> devices[i] != "" && TrimSpace(devices[i]) == devices[i])
    && forall i, j :: 0 <= i < j < |devices| ==> devices[i] != devices[j]
  }

  lemma {:induction false} NormalizingNormalizes(input: seq<string>)
    ensures AreNormal(NormalizedDevices(input))
    ensures forall d :: d in NormalizedDevices(input) <==> d != "" && exists i ::
        0 <= i < |input| && TrimSpace(input[i]) == d
  {
    hide TrimSpace;
    if input != [] {
      var shorter := input[..|input| - 1];
      NormalizingNormalizes(shorter);
      TrimIsIdempotent(Last(input));
      forall d
        ensures d in NormalizedDevices(input) <==> d != "" && exists i :: 0 <= i < |input| && TrimSpace(input[i]) == d
      {
        if exists i :: 0 <= i < |shorter| && TrimSpace(shorter[i]) == d {
          var i :| 0 <= i < |shorter| && TrimSpace(shorter[i]) == d;
          assert TrimSpace(input[i]) == d;
        }
        assert TrimSpace(Last(input)) == TrimSpace(input[|input| - 1]);
      }
    }
  }

  /** Of two devices in the list the one that comes first was mentioned first. */
  lemma {:induction false} NormalizingKeepsOrder(input: seq<string>, i: nat, j: nat)
    requires i < j < |NormalizedDevices(input)|
    ensures exists p ::
        && 0 <= p < |input| && TrimSpace(input[p]) == NormalizedDevices(input)[i]
        && forall q :: 0 <= q <= p ==> TrimSpace(input[q]) != NormalizedDevices(input)[j]
  {
    hide TrimSpace;
    var shorter := input[..|input| - 1];
    var before := NormalizedDevices(shorter);
    NormalizingNormalizes(shorter);
    if j < |before| {
      NormalizingKeepsOrder(shorter, i, j);
      var p :| 0 <= p < |shorter| && TrimSpace(shorter[p]) == before[i]
        && forall q :: 0 <= q <= p ==> TrimSpace(shorter[q]) != before[j];
      assert TrimSpace(input[p]) == before[i];
      assert forall q :: 0 <= q <= p ==> input[q] == shorter[q];
    } else {
      assert before[i] in before;
      var p :| 0 <= p < |shorter| && TrimSpace(shorter[p]) == before[i];
      assert TrimSpace(input[p]) == before[i];
      assert forall q :: 0 <= q <= p ==> input[q] == shorter[q];
    }
  }

  lemma {:induction false} NormalStays(devices: seq<string>)
    requires AreNormal(devices)
    ensures NormalizedDevices(devices) == devices
  {
    hide TrimSpace;
    if devices != [] {
      NormalStays(devices[..|devices| - 1]);
    }
  }

  lemma {:induction false} NormalizingIsIdempotent(input: seq<string>)
    ensures NormalizedDevices(NormalizedDevices(input)) == NormalizedDevices(input)
  {
    NormalizingNormalizes(input);
    NormalStays(NormalizedDevices(input));
  }

  lemma {:induction false} NormalSplit(lib: Library, raw: string)
    requires NormalizeTensorSplit(lib, raw).Some? && !lib.isWeight("")
    ensures var value := NormalizeTensorSplit(lib, raw).value;
      TrimSpace(value) == value && NormalizeTensorSplit(lib, value) == Some(value)
  {
    hide TrimSpace, Split, Join;
    var text := TrimSpace(raw);
    TrimIsIdempotent(raw);
    if text != "" {
      var parts := TrimParts(Split(text, ','));
      JoinSplit(text, ',');
      forall i | 0 <= i < |parts|
        ensures ',' !in parts[i] && parts[i] != "" && TrimSpace(parts[i]) == parts[i]
      {
        TrimIsIdempotent(Split(text, ',')[i]);
        TrimIsPart(Split(text, ',')[i]);
      }
      SplitJoin(parts, ',');
      JoinIsTrimmed(parts);
      assert TrimParts(parts) == parts;
    }
  }

  // ----- what a successful resolution guarantees ------------------------------------------------------------

  // The stages of a successful resolution.
  datatype Trace = Trace(options: Merge, devices: Merge, all: Merge)

  lemma {:induction false} Stages(lib: Library, instance: Config, requested: Overrides, caps: Capabilities)
      returns (trace: Trace)
    requires WellTyped(requested) && Resolve(lib, instance, requested, caps).Ok?
    ensures ApplyOptions(lib, caps, requested, |Specs|, Merge(instance, NoOverrides)) == Go(trace.options)
    ensures ApplyDevices(caps, requested, instance, trace.options) == Go(trace.devices)
    ensures ApplyTensorSplit(lib, caps, requested, instance, trace.devices) == Go(trace.all)
    ensures Conclude(requested, trace.all) == Resolve(lib, instance, requested, caps) && caps.available
    ensures OptionsApplied(instance, requested, |Specs|, trace.options) && WellTyped(trace.options.overrides)
  {
    var options := ApplyOptions(lib, caps, requested, |Specs|, Merge(instance, NoOverrides)).merge;
    var devices := ApplyDevices(caps, requested, instance, options).merge;
    trace := Trace(options, devices, ApplyTensorSplit(lib, caps, requested, instance, devices).merge);
    OptionsAreApplied(lib, caps, instance, requested, |Specs|, options);
    OverridesAreTyped(instance, requested, options);
  }

  // What the stages after the options do to the merge.
  lemma {:induction false} LaterStages(lib: Library, caps: Capabilities, instance: Config, requested: Overrides,
        trace: Trace)
    requires trace.options.overrides.gpuDevices.None? && trace.options.overrides.tensorSplit.None?
    requires ApplyDevices(caps, requested, instance, trace.options) == Go(trace.devices)
    requires ApplyTensorSplit(lib, caps, requested, instance, trace.devices) == Go(trace.all)
    ensures var Merge(before, none) := trace.options;
      var Merge(config, o) := trace.all;
      && config.options == before.options && config.sources == before.sources && o.options == none.options
      && config.gpuDevices == trace.devices.config.gpuDevices && trace.devices.config.tensorSplit == before.tensorSplit
      && o.gpuDevices == trace.devices.overrides.gpuDevices && trace.devices.overrides.tensorSplit.None?
      && (o.gpuDevices.Some? <==>
          requested.gpuDevices.Some?
              && NormalizedDevices(requested.gpuDevices.value) != NormalizedDevices(instance.gpuDevices))
      && (o.gpuDevices.Some? ==>
          config.gpuDevices == o.gpuDevices.value == NormalizedDevices(requested.gpuDevices.value))
      && (o.gpuDevices.Some? ==> config.gpuMode == if config.gpuDevices == [] then "auto" else "manual")
      && (o.gpuDevices.None? ==> config.gpuDevices == before.gpuDevices && config.gpuMode == before.gpuMode)
      && (o.tensorSplit.Some? <==>
          requested.tensorSplit.Some?
              && NormalizeTensorSplit(lib, requested.tensorSplit.value) != Some(TrimSpace(instance.tensorSplit)))
      && (o.tensorSplit.Some? ==> Some(config.tensorSplit) == o.tensorSplit == NormalizeTensorSplit(lib,
          requested.tensorSplit.value))
      && (o.tensorSplit.None? ==> config.tensorSplit == before.tensorSplit)
  {
    hide TrimSpace, NormalizedDevices, NormalizeTensorSplit, DeviceError, Choices, HasField;
  }

  // An automatic placement has no split, a manual one has devices, a split has one weight per device.
  predicate Consistent(c: Config) {
    && (c.gpuMode == "auto" ==> TrimSpace(c.tensorSplit) == "") && (c.gpuMode == "manual" ==> c.gpuDevices != [])
    && (c.tensorSplit != "" && c.gpuDevices != [] ==> |Split(c.tensorSplit, ',')| == |c.gpuDevices|)
  }

  lemma {:induction false} NoErrorIsConsistent(c: Config)
    requires ConsistencyError(c).None?
    ensures Consistent(c)
  {
    hide TrimSpace, Split;
  }

  // Exactly the requested options that change something are reported, in normal form, and set; every other
  // option keeps its value and source.
  ghost predicate OptionsReported(instance: Config, requested: Overrides, o: Overrides, c: Config) {
    && (forall j :: 0 <= j < |Specs| ==> (Requested(o, j) <==> Changes(instance, requested, j)))
    && (forall j :: 0 <= j < |Specs| && Requested(o, j) ==>
          && o.options[Specs[j].field] == Normal(requested.options[Specs[j].field])
          && Lookup(c.options, Specs[j].option) == Rendered(requested.options[Specs[j].field])
          && Lookup(c.sources, Specs[j].option) == "benchmark")
    && (forall k :: Untouched(o, k) ==>
        SameEntry(instance.options, c.options, k) && SameEntry(instance.sources, c.sources, k))
  }

  // The same for devices and split: a list is reported if it differs in normal form, and decides the placement; a
  // split that is not reported stays the instance's unless it is given back.
  ghost predicate PlacementReported(lib: Library, instance: Config, requested: Overrides, o: Overrides, c: Config) {
    && (o.gpuDevices.Some? <==>
        requested.gpuDevices.Some?
            && NormalizedDevices(requested.gpuDevices.value) != NormalizedDevices(instance.gpuDevices))
    && (o.gpuDevices.Some? ==> c.gpuDevices == o.gpuDevices.value == NormalizedDevices(requested.gpuDevices.value))
    && (o.gpuDevices.Some? ==> c.gpuMode == if c.gpuDevices == [] then "auto" else "manual")
    && (o.gpuDevices.None? ==> c.gpuDevices == instance.gpuDevices && c.gpuMode == instance.gpuMode)
    && (o.tensorSplit.Some? <==>
        requested.tensorSplit.Some?
            && NormalizeTensorSplit(lib, requested.tensorSplit.value) != Some(TrimSpace(instance.tensorSplit)))
    && (o.tensorSplit.Some? ==> o.tensorSplit == NormalizeTensorSplit(lib, requested.tensorSplit.value))
    && c.tensorSplit == (if o.tensorSplit.Some? then o.tensorSplit.value else if ClearsSplit(requested, c) then ""
        else instance.tensorSplit)
  }

  /** The reported overrides are the requested ones that change something, in normal form; the resulting
      configuration has them, keeps the instance's value of everything else, and never mixes placements. */
  lemma {:induction false} ReportIsExact(lib: Library, instance: Config, requested: Overrides, caps: Capabilities)
    requires WellTyped(requested) && Resolve(lib, instance, requested, caps).Ok?
    ensures var Ok(o, c) := Resolve(lib, instance, requested, caps);
      OptionsReported(instance, requested, o, c) && PlacementReported(lib, instance, requested, o, c) && Consistent(c)
  {
    hide OptionsReported, OptionsApplied, Consistent, Specs, NormalizedDevices, NormalizeTensorSplit, ConsistencyError;
    var trace := Stages(lib, instance, requested, caps);
    var Ok(o, c) := Resolve(lib, instance, requested, caps);
    hide Resolve, ApplyOptions;
    AppliedToOptionsOnly(instance, requested, trace.options);
    LaterStages(lib, caps, instance, requested, trace);
    hide ApplyDevices, ApplyTensorSplit;
    assert c == trace.all.config || (c == trace.all.config.(tensorSplit := "") && ClearsSplit(requested, c));
    assert ConsistencyError(c).None?;
    NoErrorIsConsistent(c);
    OptionsTold(instance, requested, trace.options, o, c);
  }

  lemma {:induction false} AppliedToOptionsOnly(instance: Config, requested: Overrides, m: Merge)
    requires OptionsApplied(instance, requested, |Specs|, m)
    ensures m.overrides.gpuDevices.None? && m.overrides.tensorSplit.None?
    ensures m.config == instance.(options := m.config.options, sources := m.config.sources)
  {
    hide Specs;
  }

  lemma {:induction false} OptionsTold(instance: Config, requested: Overrides, m: Merge, o: Overrides, c: Config)
    requires OptionsApplied(instance, requested, |Specs|, m)
    requires o.options == m.overrides.options && c.options == m.config.options && c.sources == m.config.sources
    ensures OptionsReported(instance, requested, o, c)
  {
    hide Specs, Agrees, Rendered, Normal;
    assert forall j :: 0 <= j < |Specs| ==> (Requested(o, j) <==> Requested(m.overrides, j));
    forall k | Untouched(o, k)
      ensures Untouched(m.overrides, k)
    {
    }
  }

  // The same request finds no devices left to change ...
  lemma {:induction false} DevicesAgain(caps: Capabilities, requested: Overrides, instance: Config, before: Merge,
        after: Merge, c: Config)
    requires ApplyDevices(caps, requested, instance, before) == Go(after)
        && before.config.gpuDevices == instance.gpuDevices
    requires c.gpuDevices == after.config.gpuDevices
    ensures ApplyDevices(caps, requested, c, Merge(c, NoOverrides)) == Go(Merge(c, NoOverrides))
  {
    hide NormalizedDevices, DeviceError, Choices, HasField;
    if requested.gpuDevices.Some? {
      NormalizingIsIdempotent(requested.gpuDevices.value);
    }
  }

  // ... and no split.
  lemma {:induction false} SplitAgain(lib: Library, caps: Capabilities, requested: Overrides, instance: Config,
        before: Merge, after: Merge, c: Config)
    requires ApplyTensorSplit(lib, caps, requested, instance, before) == Go(after)
        && before.config.tensorSplit == instance.tensorSplit
    requires !lib.isWeight("") && (requested.tensorSplit.Some? ==> c.tensorSplit == after.config.tensorSplit)
    ensures ApplyTensorSplit(lib, caps, requested, c, Merge(c, NoOverrides)) == Go(Merge(c, NoOverrides))
  {
    hide TrimSpace, NormalizeTensorSplit, HasField;
    if requested.tensorSplit.Some? {
      NormalSplit(lib, requested.tensorSplit.value);
    }
  }

  /** Resolving the result again with the same request changes nothing and reports nothing. */
  lemma {:induction false} ResolveIsIdempotent(lib: Library, instance: Config, requested: Overrides, caps: Capabilities)
    requires WellTyped(requested) && !lib.isWeight("") && Resolve(lib, instance, requested, caps).Ok?
    ensures var c := Resolve(lib, instance, requested, caps).config;
      Resolve(lib, c, requested, caps) == Ok(NoOverrides, c)
  {
    var trace := Stages(lib, instance, requested, caps);
    var c := Resolve(lib, instance, requested, caps).config;
    hide Specs, Resolve, ApplyOptions, ApplyDevices, ApplyTensorSplit, Agrees, Check, NormalizedDevices,
        NormalizeTensorSplit, ConsistencyError;
    LaterStages(lib, caps, instance, requested, trace);
    OptionsAreApplied(lib, caps, instance, requested, |Specs|, trace.options);
    assert ConsistencyError(c).None? && (ClearsSplit(requested, c) ==> c.tensorSplit == "");
    assert c.options == trace.options.config.options && c.gpuDevices == trace.devices.config.gpuDevices;
    assert requested.tensorSplit.Some? ==> c.tensorSplit == trace.all.config.tensorSplit;
    hide Conclude, ClearsSplit;
    forall j | 0 <= j < |Specs| && Requested(requested, j)
      ensures Agrees(Lookup(c.options, Specs[j].option), requested.options[Specs[j].field])
    {
      RequestedAgrees(instance, requested, trace.options, j);
    }
    SettledOptions(lib, caps, requested, |Specs|, Merge(c, NoOverrides));
    hide OptionsApplied;
    DevicesAgain(caps, requested, instance, trace.options, trace.devices, c);
    SplitAgain(lib, caps, requested, instance, trace.devices, trace.all, c);
    Again(lib, c, requested, caps);
  }

  lemma {:induction false} Again(lib: Library, c: Config, requested: Overrides, caps: Capabilities)
    requires WellTyped(requested) && caps.available && ConsistencyError(c).None?
    requires ClearsSplit(requested, c) ==> c.tensorSplit == ""
    requires ApplyOptions(lib, caps, requested, |Specs|, Merge(c, NoOverrides)) == Go(Merge(c, NoOverrides))
    requires ApplyDevices(caps, requested, c, Merge(c, NoOverrides)) == Go(Merge(c, NoOverrides))
    requires ApplyTensorSplit(lib, caps, requested, c, Merge(c, NoOverrides)) == Go(Merge(c, NoOverrides))
    ensures Resolve(lib, c, requested, caps) == Ok(NoOverrides, c)
  {
    hide Specs, ApplyOptions, ApplyDevices, ApplyTensorSplit, ConsistencyError;
  }

  lemma {:induction false} DevicesReplayed(caps: Capabilities, requested: Overrides, o: Overrides, instance: Config,
        before: Merge, after: Merge)
    requires ApplyDevices(caps, requested, instance, before) == Go(after) && before.overrides.gpuDevices.None?
    requires o.gpuDevices == after.overrides.gpuDevices
    ensures ApplyDevices(caps, o, instance, before) == Go(after)
  {
    hide NormalizedDevices, DeviceError, Choices, HasField;
    if requested.gpuDevices.Some? {
      NormalizingIsIdempotent(requested.gpuDevices.value);
    }
  }

  lemma {:induction false} SplitReplayed(lib: Library, caps: Capabilities, requested: Overrides, o: Overrides,
        instance: Config, before: Merge, after: Merge)
    requires ApplyTensorSplit(lib, caps, requested, instance, before) == Go(after) && before.overrides.tensorSplit.None?
    requires !lib.isWeight("") && o.tensorSplit == after.overrides.tensorSplit
    ensures ApplyTensorSplit(lib, caps, o, instance, before) == Go(after)
  {
    hide TrimSpace, NormalizeTensorSplit, HasField;
    if requested.tensorSplit.Some? {
      NormalSplit(lib, requested.tensorSplit.value);
    }
  }

  // In terms of the two requests: one gives the instance's split back and the other does not.
  lemma {:induction false} ReplayByClearing(lib: Library, instance: Config, requested: Overrides, caps: Capabilities)
    requires WellTyped(requested) && !lib.isWeight("") && Resolve(lib, instance, requested, caps).Ok?
    ensures var Ok(o, c) := Resolve(lib, instance, requested, caps);
      && WellTyped(o)
      && (Resolve(lib, instance, o, caps) == Ok(o, c) <==>
          instance.tensorSplit == "" || (ClearsSplit(requested, c) <==> ClearsSplit(o, c)))
  {
    var trace := Stages(lib, instance, requested, caps);
    var Ok(o, c) := Resolve(lib, instance, requested, caps);
    hide Specs, Resolve, ApplyOptions, ApplyDevices, ApplyTensorSplit, ConsistencyError;
    assert o == trace.all.overrides;
    LaterStages(lib, caps, instance, requested, trace);
    hide Conclude, ClearsSplit;
    assert WellTyped(o);
    ReplayedOptions(lib, caps, instance, requested, o, |Specs|, trace.options, trace.options);
    hide OptionsApplied, WellTyped;
    DevicesReplayed(caps, requested, o, instance, trace.options, trace.devices);
    SplitReplayed(lib, caps, requested, o, instance, trace.devices, trace.all);
    ResolvedBy(lib, instance, o, caps, trace);
    ConcludeAgain(instance, requested, o, c, trace.all);
  }

  /** The requests whose report does not reproduce their result.  The instance has a split and the request
      returns to automatic placement; either that changes no device, so that it is not reported, or the
      request asks for no split where the instance has a blank one, so that this is not reported. */
  predicate ReportIsNotEnough(lib: Library, instance: Config, requested: Overrides) {
    && instance.tensorSplit != "" && requested.gpuDevices.Some? && NormalizedDevices(requested.gpuDevices.value) == []
    && if requested.tensorSplit.None? then instance.gpuMode == "auto" && instance.gpuDevices == []
       else NormalizedDevices(instance.gpuDevices) != [] && TrimSpace(instance.tensorSplit) == ""
            && NormalizeTensorSplit(lib, requested.tensorSplit.value) == Some("")
  }

  /** Requesting just the reported overrides of a successful resolution reproduces its report and
      configuration exactly when the request is none of those. */
  lemma {:induction false} ReplayReproduces(lib: Library, instance: Config, requested: Overrides, caps: Capabilities)
    requires WellTyped(requested) && !lib.isWeight("") && Resolve(lib, instance, requested, caps).Ok?
    ensures var Ok(o, c) := Resolve(lib, instance, requested, caps);
      && WellTyped(o)
      && (Resolve(lib, instance, o, caps) == Ok(o, c) <==> !ReportIsNotEnough(lib, instance, requested))
  {
    ReplayByClearing(lib, instance, requested, caps);
    var trace := Stages(lib, instance, requested, caps);
    hide Specs, Resolve, ApplyOptions, OptionsApplied, WellTyped;
    if instance.tensorSplit != "" {
      ClearingTold(lib, caps, instance, requested, trace);
    }
  }

  // What the two requests give back, told by the inputs.
  lemma {:induction false} ClearingTold(lib: Library, caps: Capabilities, instance: Config, requested: Overrides,
        trace: Trace)
    requires trace.options.overrides == NoOverrides.(options := trace.options.overrides.options)
    requires trace.options.config ==
        instance.(options := trace.options.config.options, sources := trace.options.config.sources)
    requires ApplyDevices(caps, requested, instance, trace.options) == Go(trace.devices)
    requires ApplyTensorSplit(lib, caps, requested, instance, trace.devices) == Go(trace.all)
    requires Conclude(requested, trace.all).Ok? && instance.tensorSplit != ""
    ensures var Ok(o, c) := Conclude(requested, trace.all);
      (ClearsSplit(requested, c) <==> ClearsSplit(o, c)) <==> !ReportIsNotEnough(lib, instance, requested)
  {
    hide Specs, TrimSpace, NormalizedDevices, NormalizeTensorSplit, DeviceError, Choices, HasField;
    assert NormalizedDevices([]) == [] by { NoDevices(); }
    assert TrimSpace("") == "" by { NothingTrimsToNothing(); }
  }

  lemma {:induction false} NoDevices()
    ensures NormalizedDevices([]) == []
  {
  }

  lemma {:induction false} NothingTrimsToNothing()
    ensures TrimSpace("") == ""
  {
    assert |TrimSpace("")| <= 0;
  }

  lemma {:induction false} ConcludeAgain(instance: Config, requested: Overrides, o: Overrides, c: Config, m: Merge)
    requires Conclude(requested, m) == Ok(o, c) && m.overrides == o
    requires o.gpuDevices.Some? ==> requested.gpuDevices.Some?
    requires o.tensorSplit.Some? ==> requested.tensorSplit.Some?
    requires o.tensorSplit.None? ==> m.config.tensorSplit == instance.tensorSplit
    ensures Conclude(o, m) == Ok(o, c) <==>
        instance.tensorSplit == "" || (ClearsSplit(requested, c) <==> ClearsSplit(o, c))
  {
    hide ConsistencyError;
  }

  lemma {:induction false} ResolvedBy(lib: Library, instance: Config, o: Overrides, caps: Capabilities, trace: Trace)
    requires WellTyped(o) && caps.available
    requires ApplyOptions(lib, caps, o, |Specs|, Merge(instance, NoOverrides)) == Go(trace.options)
    requires ApplyDevices(caps, o, instance, trace.options) == Go(trace.devices)
    requires ApplyTensorSplit(lib, caps, o, instance, trace.devices) == Go(trace.all)
    ensures Resolve(lib, instance, o, caps) == Conclude(o, trace.all)
  {
    hide Specs, ApplyOptions, ApplyDevices, ApplyTensorSplit, Conclude;
  }

  /** A request that returns an automatic instance with a left-over split to automatic placement is such
      a case: its report is empty, and resolving the empty report fails. */
  lemma {:induction false} ReplayCanFail(lib: Library, caps: Capabilities)
      returns (instance: Config, requested: Overrides)
    requires caps.available && HasField(caps, "gpu_devices")
    ensures WellTyped(requested)
    ensures Resolve(lib, instance, requested, caps) == Ok(NoOverrides, instance.(tensorSplit := ""))
    ensures Resolve(lib, instance, NoOverrides, caps) == Err(SplitNeedsDevices)
  {
    hide Specs, ApplyOptions, TrimSpace, Conclude, Resolve, Choices;
    instance := Config("auto", [], "1", map[], map[]);
    requested := Overrides(map[], Some([]), None);
    var m := Merge(instance, NoOverrides);
    SettledOptions(lib, caps, requested, |Specs|, m);
    SettledOptions(lib, caps, NoOverrides, |Specs|, m);
    ResolvedBy(lib, instance, requested, caps, Trace(m, m, m));
    ResolvedBy(lib, instance, NoOverrides, caps, Trace(m, m, m));
    LeftOverSplit(instance, requested);
  }

  lemma {:induction false} LeftOverSplit(instance: Config, requested: Overrides)
    requires instance == Config("auto", [], "1", map[], map[]) && requested == Overrides(map[], Some([]), None)
    ensures Conclude(requested, Merge(instance, NoOverrides)) == Ok(NoOverrides, instance.(tensorSplit := ""))
    ensures Conclude(NoOverrides, Merge(instance, NoOverrides)) == Err(SplitNeedsDevices)
  {
    hide TrimSpace, Specs, Split;
    NothingToTrim("1");
    assert |TrimSpace("")| <= 0;
  }

  /** A blank split is the other case: the request asks for no split, which is not reported as a change, and
      without that the replay gives the blank split back. */
  lemma {:induction false} ReplayCanDifferOnABlankSplit(lib: Library, caps: Capabilities)
      returns (instance: Config, requested: Overrides, o: Overrides)
    requires caps.available && HasField(caps, "gpu_devices") && HasField(caps, "tensor_split")
    ensures WellTyped(requested) && WellTyped(o)
    ensures Resolve(lib, instance, requested, caps) == Ok(o, instance.(gpuMode := "auto", gpuDevices := []))
    ensures Resolve(lib, instance, o, caps) == Ok(o, instance.(gpuMode := "auto", gpuDevices := [], tensorSplit := ""))
    ensures instance.tensorSplit != ""
  {
    hide Specs, ApplyOptions, TrimSpace, Resolve, Choices;
    instance := Config("manual", ["0"], "\t", map[], map[]);
    requested := Overrides(map[], Some([]), Some(""));
    o := Overrides(map[], Some([]), None);
    var m := Merge(instance, NoOverrides);
    SettledOptions(lib, caps, requested, |Specs|, m);
    SettledOptions(lib, caps, o, |Specs|, m);
    NothingTrimsToNothing();
    TabIsBlank();
    NothingToTrim("0");
    NoDevices();
    OneDevice();
    var all := Merge(instance.(gpuMode := "auto", gpuDevices := []), NoOverrides.(gpuDevices := Some([])));
    assert ApplyDevices(caps, requested, instance, m) == Go(all) && ApplyDevices(caps, o, instance, m) == Go(all);
    assert ApplyTensorSplit(lib, caps, requested, instance, all) == Go(all)
        && ApplyTensorSplit(lib, caps, o, instance, all) == Go(all);
    ResolvedBy(lib, instance, requested, caps, Trace(m, all, all));
    ResolvedBy(lib, instance, o, caps, Trace(m, all, all));
  }

  lemma {:induction false} TabIsBlank()
    ensures TrimSpace("\t") == ""
  {
    assert "\t"[1..] == "";
    assert SpaceAtStart("\t") == 1 && SpaceAtEnd("") == 0;
    hide SpaceAtStart, SpaceAtEnd;
    NothingTrimsToNothing();
  }

  lemma {:induction false} OneDevice()
    ensures NormalizedDevices(["0"]) != []
  {
    NothingToTrim("0");
    hide TrimSpace;
    assert ["0"][..0] == [];
  }

  // ----- the resolution, step by step ---------------------------------------------------------------------

  method NormalizeDeviceList(input: seq<string>) returns (devices: seq<string>)
    ensures devices == NormalizedDevices(input)
  {
    hide TrimSpace;
    devices := [];
    var seen: set<string> := {};
    for i := 0 to |input|
      invariant devices == NormalizedDevices(input[..i]) && forall d :: d in seen <==> d in devices
    {
      assert input[..i + 1][..i] == input[..i];
      var value := TrimSpace(input[i]);
      if value != "" && value !in seen {
        devices, seen := devices + [value], seen + {value};
      }
    }
    assert input[..|input|] == input;
  }

  method NormalizeSplit(lib: Library, raw: string) returns (value: Option<string>)
    ensures value == NormalizeTensorSplit(lib, raw)
  {
    hide TrimSpace, Split, Join;
    var text := TrimSpace(raw);
    if text == "" {
      return Some("");
    }
    var parts := Split(text, ',');
    var out: seq<string> := [];
    for i := 0 to |parts|
      invariant out == TrimParts(parts)[..i]
      invariant forall j :: 0 <= j < i ==> lib.isWeight(TrimParts(parts)[j])
    {
      var part := TrimSpace(parts[i]);
      assert TrimParts(parts)[i] == part;
      if !lib.isWeight(part) {
        return None;
      }
      out := out + [part];
    }
    assert TrimParts(parts)[..|parts|] == TrimParts(parts);
    value := Some(Join(out, ","));
  }

  method ResolveRuntimeConfig(lib: Library, instance: Config, requested: Overrides, caps: Capabilities)
      returns (result: Resolution)
    requires WellTyped(requested)
    ensures result == Resolve(lib, instance, requested, caps)
  {
    hide Specs, Agrees, Check, Rendered, Normal, TrimSpace, NormalizedDevices, DeviceError, NormalizeTensorSplit,
        ConsistencyError;
    if !caps.available {
      return Err(Unavailable(caps.reason));
    }
    var effective, normalized := instance, NoOverrides;
    for i := 0 to |Specs|
      invariant ApplyOptions(lib, caps, requested, i, Merge(instance, NoOverrides)) == Go(Merge(effective, normalized))
    {
      var spec := Specs[i];
      if spec.field in requested.options {
        var v := requested.options[spec.field];
        var error := Check(lib, caps, spec, v);
        if error.Some? {
          StopsThere(lib, caps, requested, i + 1, Merge(instance, NoOverrides));
          return Err(error.value);
        }
        if !Agrees(Lookup(effective.options, spec.option), v) {
          effective := effective.(options := effective.options[spec.option := Rendered(v)],
              sources := effective.sources[spec.option := "benchmark"]);
          normalized := normalized.(options := normalized.options[spec.field := Normal(v)]);
        }
      }
    }
    ghost var options := Merge(effective, normalized);
    if requested.gpuDevices.Some? {
      if !HasField(caps, "gpu_devices") {
        return Err(Unsupported("gpu_devices"));
      }
      var devices := NormalizeDeviceList(requested.gpuDevices.value);
      var error := DeviceError(devices, Choices(caps.runtimeOptions, "gpu_devices"));
      if error.Some? {
        return Err(error.value);
      }
      var present := NormalizeDeviceList(instance.gpuDevices);
      if devices != present {
        normalized := normalized.(gpuDevices := Some(devices));
        effective := effective.(gpuDevices := devices, gpuMode := if devices == [] then "auto" else "manual");
      }
    }
    assert ApplyDevices(caps, requested, instance, options) == Go(Merge(effective, normalized));
    ghost var devices := Merge(effective, normalized);
    if requested.tensorSplit.Some? {
      if !HasField(caps, "tensor_split") {
        return Err(Unsupported("tensor_split"));
      }
      var value := NormalizeSplit(lib, requested.tensorSplit.value);
      if value.None? {
        return Err(BadWeights);
      }
      if value.value != TrimSpace(instance.tensorSplit) {
        normalized := normalized.(tensorSplit := value);
        effective := effective.(tensorSplit := value.value);
      }
    }
    assert ApplyTensorSplit(lib, caps, requested, instance, devices) == Go(Merge(effective, normalized));
    ResolvedBy(lib, instance, requested, caps, Trace(options, devices, Merge(effective, normalized)));
    hide ApplyOptions, ApplyDevices, ApplyTensorSplit, Resolve;
    if effective.gpuMode == "auto" && requested.gpuDevices.Some? && effective.gpuDevices == []
        && requested.tensorSplit.None? {
      effective := effective.(tensorSplit := "");
    }
    var error := ConsistencyError(effective);
    if error.Some? {
      return Err(error.value);
    }
    result := Ok(normalized, effective);
  }

  // The first error ends the resolution.
  lemma {:induction false} StopsThere(lib: Library, caps: Capabilities, requested: Overrides, n: nat, m: Merge)
    requires n <= |Specs| && WellTyped(requested) && ApplyOptions(lib, caps, requested, n, m).Stop?
    ensures ApplyOptions(lib, caps, requested, |Specs|, m) == ApplyOptions(lib, caps, requested, n, m)
    decreases |Specs| - n
  {
    hide Specs, ApplyOption;
    if n < |Specs| {
      StopsThere(lib, caps, requested, n + 1, m);
    }
  }
}
